/**
 * The queue-family scans of the current Vulkan back end.  The device's
 * queue families are given in index order, each with its queue flags, its
 * queue count and whether it can present to the window surface (the answer
 * of vkGetPhysicalDeviceSurfaceSupportKHR for that index).
 *
 * Every scan walks the families in order, records an index whenever a
 * family offers what it looks for, and stops once its record is complete.
 * A single-capability scan therefore finds the first family offering it;
 * the graphics/present scan keeps overwriting both indices until both are
 * set, so each is the last one seen before the stop.
 */
module QueueFamilies {
  import opened Wrappers
  import opened VulkanTypes

  /** What a scan looks for in a family. */
  datatype Capability = Graphics | Present | Compute | Transfer | Protected

  /** Whether a family offers a capability: its queue-flag bit, or surface support for Present. */
  predicate Offers(family: QueueFamilyInfo, c: Capability)
  {
    match c
    case Graphics => family.queueFlags & QueueGraphics != 0
    case Present => family.presentSupport
    case Compute => family.queueFlags & QueueCompute != 0
    case Transfer => family.queueFlags & QueueTransfer != 0
    case Protected => family.queueFlags & QueueProtected != 0
  }

  /** The last of the first n families that offers c, if any. */
  function LastOffering(families: seq<QueueFamilyInfo>, n: nat, c: Capability): (r: Option<nat>)
    requires n <= |families|
    ensures r.Some? ==> r.value < n && Offers(families[r.value], c)
    ensures r.Some? ==> forall j :: r.value < j < n ==> !Offers(families[j], c)
    ensures r.None? <==> forall j :: 0 <= j < n ==> !Offers(families[j], c)
  {
    if n == 0 then None
    else if Offers(families[n - 1], c) then Some(n - 1)
    else LastOffering(families, n - 1, c)
  }

  /** The first family at or after index n that offers c, if any. */
  function FirstOfferingFrom(families: seq<QueueFamilyInfo>, c: Capability, n: nat): (r: Option<nat>)
    requires n <= |families|
    ensures r.Some? ==> n <= r.value < |families| && Offers(families[r.value], c)
    ensures r.Some? ==> forall j :: n <= j < r.value ==> !Offers(families[j], c)
    ensures r.None? <==> forall j :: n <= j < |families| ==> !Offers(families[j], c)
    decreases |families| - n
  {
    if n == |families| then None
    else if Offers(families[n], c) then Some(n)
    else FirstOfferingFrom(families, c, n + 1)
  }

  /** The first family that offers c, if any. */
  function FirstOffering(families: seq<QueueFamilyInfo>, c: Capability): Option<nat>
  {
    FirstOfferingFrom(families, c, 0)
  }

  /** The first n families already contain a graphics family and a present family. */
  predicate BothSeen(families: seq<QueueFamilyInfo>, n: nat)
    requires n <= |families|
  {
    LastOffering(families, n, Graphics).Some? && LastOffering(families, n, Present).Some?
  }

  /**
   * How many families the graphics/present scan visits when it has visited
   * n without stopping: up to and including the first family after which
   * both have been seen, or all of them.
   */
  function PairScanLength(families: seq<QueueFamilyInfo>, n: nat): (m: nat)
    requires n <= |families|
    ensures n <= m <= |families|
    ensures m == |families| || BothSeen(families, m)
    ensures forall k :: n < k < m ==> !BothSeen(families, k)
    decreases |families| - n
  {
    if n == |families| then n
    else if BothSeen(families, n + 1) then n + 1
    else PairScanLength(families, n + 1)
  }

  /** The result of GetGraphicsFamily. */
  datatype GraphicsFamily = GraphicsFamily(graphicsIndex: Option<nat>, presentIndex: Option<nat>)
  {
    /** GraphicsFamily::IsComplete: both indices are set. */
    predicate IsComplete()
    {
      graphicsIndex.Some? && presentIndex.Some?
    }
  }

  /** The result of GetComputeFamily. */
  datatype ComputeFamily = ComputeFamily(computeIndex: Option<nat>)
  {
    /** ComputeFamily::IsComplete: the index is set. */
    predicate IsComplete()
    {
      computeIndex.Some?
    }
  }

  /** The result of GetTransferFamily. */
  datatype TransferFamily = TransferFamily(transferIndex: Option<nat>)
  {
    /** TransferFamily::IsComplete: the index is set. */
    predicate IsComplete()
    {
      transferIndex.Some?
    }
  }

  function Max(a: nat, b: nat): nat
  {
    if a < b then b else a
  }

  /**
   * What the graphics/present scan finds: the last graphics family and the
   * last present family among the families it visits.  Each index names a
   * family that offers its capability; the record is complete exactly when
   * some family offers graphics and some family can present; and when it is
   * complete the scan stopped at the larger of the two indices, no earlier
   * prefix held both, and neither capability occurs again between its index
   * and the stop.
   */
  function GraphicsFamilyOf(families: seq<QueueFamilyInfo>): (r: GraphicsFamily)
    ensures r.graphicsIndex.Some? ==> r.graphicsIndex.value < |families| && Offers(families[r.graphicsIndex.value], Graphics)
    ensures r.presentIndex.Some? ==> r.presentIndex.value < |families| && Offers(families[r.presentIndex.value], Present)
    ensures r.IsComplete() <==>
              (exists j :: 0 <= j < |families| && Offers(families[j], Graphics))
              && (exists j :: 0 <= j < |families| && Offers(families[j], Present))
    ensures r.IsComplete() ==>
              var stop := Max(r.graphicsIndex.value, r.presentIndex.value);
              && (forall k :: 0 <= k <= stop ==> !BothSeen(families, k))
              && (forall j :: r.graphicsIndex.value < j <= stop ==> !Offers(families[j], Graphics))
              && (forall j :: r.presentIndex.value < j <= stop ==> !Offers(families[j], Present))
  {
    var m := PairScanLength(families, 0);
    var r := GraphicsFamily(LastOffering(families, m, Graphics), LastOffering(families, m, Present));
    if r.IsComplete() then
      var stop := Max(r.graphicsIndex.value, r.presentIndex.value);
      assert stop + 1 == m by {
        assert BothSeen(families, stop + 1);
      }
      r
    else
      assert m == |families|;
      r
  }

  /**
   * GetGraphicsFamily: walks the families in order, recording the graphics
   * and present indices, until both are set.
   */
  method GetGraphicsFamily(families: seq<QueueFamilyInfo>) returns (family: GraphicsFamily)
    ensures family == GraphicsFamilyOf(families)
  {
    family := GraphicsFamily(None, None);
    var i := 0;
    while i < |families|
      invariant i <= |families|
      invariant family == GraphicsFamily(LastOffering(families, i, Graphics), LastOffering(families, i, Present))
      invariant PairScanLength(families, 0) == PairScanLength(families, i)
    {
      if families[i].queueFlags & QueueGraphics != 0 {
        family := family.(graphicsIndex := Some(i));
      }
      if families[i].presentSupport {
        family := family.(presentIndex := Some(i));
      }
      if family.IsComplete() {
        assert BothSeen(families, i + 1);
        return;
      }
      i := i + 1;
    }
  }

  /** The scan behind every single-capability finder: the first family that offers c. */
  method FirstFamilyWith(families: seq<QueueFamilyInfo>, c: Capability) returns (index: Option<nat>)
    ensures index == FirstOffering(families, c)
  {
    index := None;
    var i := 0;
    while i < |families|
      invariant i <= |families|
      invariant FirstOffering(families, c) == FirstOfferingFrom(families, c, i)
    {
      if Offers(families[i], c) {
        index := Some(i);
        return;
      }
      i := i + 1;
    }
  }

  /** GetComputeFamily: the first family with the COMPUTE bit, or none. */
  method GetComputeFamily(families: seq<QueueFamilyInfo>) returns (family: ComputeFamily)
    ensures family.computeIndex.Some? ==> family.computeIndex.value < |families| && Offers(families[family.computeIndex.value], Compute)
    ensures family.computeIndex.Some? ==> forall j :: 0 <= j < family.computeIndex.value && j < |families| ==> !Offers(families[j], Compute)
    ensures !family.IsComplete() <==> forall j :: 0 <= j < |families| ==> !Offers(families[j], Compute)
  {
    var index := FirstFamilyWith(families, Compute);
    family := ComputeFamily(index);
  }

  /** GetTransferFamily: the first family with the TRANSFER bit, or none. */
  method GetTransferFamily(families: seq<QueueFamilyInfo>) returns (family: TransferFamily)
    ensures family.transferIndex.Some? ==> family.transferIndex.value < |families| && Offers(families[family.transferIndex.value], Transfer)
    ensures family.transferIndex.Some? ==> forall j :: 0 <= j < family.transferIndex.value && j < |families| ==> !Offers(families[j], Transfer)
    ensures !family.IsComplete() <==> forall j :: 0 <= j < |families| ==> !Offers(families[j], Transfer)
  {
    var index := FirstFamilyWith(families, Transfer);
    family := TransferFamily(index);
  }
}
