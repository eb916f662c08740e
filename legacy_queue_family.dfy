/**
 * The queue-family finders of the older Vulkan back end.  They scan like the
 * current ones, but record each index together with that family's queue
 * count.  With no families at all they construct an error object without
 * throwing it, so the scan simply finds nothing.
 *
 * The protected-memory finder tests the COMPUTE bit instead of the
 * PROTECTED bit.  FindProtectedQueueFamilyIndicesAsWritten keeps that
 * test; FindProtectedQueueFamilyIndices is the finder with the PROTECTED bit.
 */
module LegacyQueueFamilies {
  import opened Wrappers
  import opened VulkanTypes
  import opened QueueFamilies

  /** A recorded family: its index and its queue count. */
  datatype FamilySlot = FamilySlot(index: nat, queueCount: nat)

  /** The slot of a found index, with the queue count of that family. */
  function SlotAt(families: seq<QueueFamilyInfo>, index: Option<nat>): Option<FamilySlot>
    requires index.Some? ==> index.value < |families|
  {
    if index.Some? then Some(FamilySlot(index.value, families[index.value].queueCount)) else None
  }

  datatype GraphicsPresentQueueFamilyIndices = GraphicsPresentQueueFamilyIndices(graphicsFamily: Option<FamilySlot>, presentFamily: Option<FamilySlot>)
  {
    predicate IsComplete()
    {
      graphicsFamily.Some? && presentFamily.Some?
    }
  }

  /** The result of the compute, transfer and protected finders: one slot, possibly unset. */
  datatype SingleQueueFamilyIndices = SingleQueueFamilyIndices(family: Option<FamilySlot>)
  {
    predicate IsComplete()
    {
      family.Some?
    }
  }

  /** The slot the graphics/present scan and the single-capability scans record is a real family with its queue count. */
  predicate SlotNames(families: seq<QueueFamilyInfo>, slot: FamilySlot, c: Capability)
  {
    slot.index < |families| && Offers(families[slot.index], c) && slot.queueCount == families[slot.index].queueCount
  }

  /**
   * FindGraphicsPresentQueueFamilyIndices: the indices of the current
   * graphics/present scan, each stored with its family's queue count.
   */
  method FindGraphicsPresentQueueFamilyIndices(families: seq<QueueFamilyInfo>) returns (r: GraphicsPresentQueueFamilyIndices)
    ensures r.graphicsFamily == SlotAt(families, GraphicsFamilyOf(families).graphicsIndex)
    ensures r.presentFamily == SlotAt(families, GraphicsFamilyOf(families).presentIndex)
    ensures r.graphicsFamily.Some? ==> SlotNames(families, r.graphicsFamily.value, Graphics)
    ensures r.presentFamily.Some? ==> SlotNames(families, r.presentFamily.value, Present)
    ensures |families| == 0 ==> !r.IsComplete()
  {
    var family := GetGraphicsFamily(families);
    r := GraphicsPresentQueueFamilyIndices(SlotAt(families, family.graphicsIndex), SlotAt(families, family.presentIndex));
  }

  /** The scan shared by the three single-capability finders: the first family testing positive for the bit. */
  method FindFirst(families: seq<QueueFamilyInfo>, c: Capability) returns (r: SingleQueueFamilyIndices)
    ensures r.family == SlotAt(families, FirstOffering(families, c))
    ensures r.family.Some? ==> SlotNames(families, r.family.value, c)
    ensures r.family.Some? ==> forall j :: 0 <= j < r.family.value.index ==> !Offers(families[j], c)
    ensures !r.IsComplete() <==> forall j :: 0 <= j < |families| ==> !Offers(families[j], c)
  {
    var index := FirstFamilyWith(families, c);
    r := SingleQueueFamilyIndices(SlotAt(families, index));
  }

  /** FindComputeQueueFamilyIndices: the first COMPUTE family with its queue count. */
  method FindComputeQueueFamilyIndices(families: seq<QueueFamilyInfo>) returns (r: SingleQueueFamilyIndices)
    ensures r.family == SlotAt(families, FirstOffering(families, Compute))
  {
    r := FindFirst(families, Compute);
  }

  /** FindTransferQueueFamilyIndices: the first TRANSFER family with its queue count. */
  method FindTransferQueueFamilyIndices(families: seq<QueueFamilyInfo>) returns (r: SingleQueueFamilyIndices)
    ensures r.family == SlotAt(families, FirstOffering(families, Transfer))
  {
    r := FindFirst(families, Transfer);
  }

  /**
   * FindProtectedQueueFamilyIndices as written: it tests the COMPUTE bit, so
   * it returns exactly what the compute finder returns.
   */
  method FindProtectedQueueFamilyIndicesAsWritten(families: seq<QueueFamilyInfo>) returns (r: SingleQueueFamilyIndices)
    ensures r.family == SlotAt(families, FirstOffering(families, Compute))
  {
    r := FindFirst(families, Compute);
  }

  /**
   * FindProtectedQueueFamilyIndices with the PROTECTED bit: the family it
   * returns supports protected memory, and it returns none when no family
   * does.
   */
  method FindProtectedQueueFamilyIndices(families: seq<QueueFamilyInfo>) returns (r: SingleQueueFamilyIndices)
    ensures r.family.Some? ==> SlotNames(families, r.family.value, Protected)
    ensures r.family.Some? ==> forall j :: 0 <= j < r.family.value.index ==> !Offers(families[j], Protected)
    ensures !r.IsComplete() <==> forall j :: 0 <= j < |families| ==> !Offers(families[j], Protected)
  {
    r := FindFirst(families, Protected);
  }

  /** A graphics+compute family followed by a compute family with protected memory. */
  const ProtectedExample: seq<QueueFamilyInfo> := [
    QueueFamilyInfo(QueueGraphics | QueueCompute, 16, true),
    QueueFamilyInfo(QueueCompute | QueueProtected, 2, false)
  ]

  /**
   * On ProtectedExample the finder as written picks family 0, which has no
   * protected memory, while family 1 is the protected one.
   */
  lemma ProtectedFinderAsWrittenPicksUnprotectedFamily()
    ensures SlotAt(ProtectedExample, FirstOffering(ProtectedExample, Compute)) == Some(FamilySlot(0, 16))
    ensures !Offers(ProtectedExample[0], Protected)
    ensures SlotAt(ProtectedExample, FirstOffering(ProtectedExample, Protected)) == Some(FamilySlot(1, 2))
  {
    assert Offers(ProtectedExample[0], Compute);
    assert !Offers(ProtectedExample[0], Protected) && Offers(ProtectedExample[1], Protected);
    assert FirstOfferingFrom(ProtectedExample, Protected, 0) == FirstOfferingFrom(ProtectedExample, Protected, 1);
  }
}
