/**
 * The decision logic of the Vulkan helper functions: the memory-type
 * search, the image-layout transition table, the buffer descriptions used
 * to upload vertices, indices and uniforms, and the vertex input tables.
 * The device's memory types are given as the property flags of each type,
 * in index order.
 */
module VulkanUtils {
  import opened Wrappers
  import opened CoreBuffer
  import opened VulkanTypes
  import opened VulkanBuffer

  /** Vulkan reports at most 32 memory types. */
  const MaxMemoryTypes: nat := 32

  /** Bit i of a memory-type filter is set. */
  predicate FilterAllows(typeFilter: Flags, i: nat)
    requires i < 32
  {
    typeFilter & ((1 as bv32) << i) != 0
  }

  /** Memory type i is allowed by the filter and has every requested property. */
  predicate MemoryTypeFits(memoryTypes: seq<Flags>, typeFilter: Flags, properties: Flags, i: nat)
    requires i < |memoryTypes| <= MaxMemoryTypes
  {
    FilterAllows(typeFilter, i) && HasAll(memoryTypes[i], properties)
  }

  /**
   * FindMemoryType: the smallest memory type that the filter allows and that
   * has every requested property; an error when there is none.
   */
  method FindMemoryType(memoryTypes: seq<Flags>, typeFilter: Flags, properties: Flags) returns (r: Result<nat, string>)
    requires |memoryTypes| <= MaxMemoryTypes
    ensures r.Ok? ==> r.value < |memoryTypes| && MemoryTypeFits(memoryTypes, typeFilter, properties, r.value)
    ensures r.Ok? ==> forall j :: 0 <= j < r.value ==> !MemoryTypeFits(memoryTypes, typeFilter, properties, j)
    ensures r.Err? <==> forall j :: 0 <= j < |memoryTypes| ==> !MemoryTypeFits(memoryTypes, typeFilter, properties, j)
  {
    for i := 0 to |memoryTypes|
      invariant forall j :: 0 <= j < i ==> !MemoryTypeFits(memoryTypes, typeFilter, properties, j)
    {
      if typeFilter & ((1 as bv32) << i) != 0 && memoryTypes[i] & properties == properties {
        assert MemoryTypeFits(memoryTypes, typeFilter, properties, i);
        return Ok(i);
      }
    }
    return Err("failed to find suitable memory type!");
  }

  /** The synchronisation an image-layout transition records. */
  datatype Barrier = Barrier(oldLayout: int, newLayout: int, srcAccess: Flags, dstAccess: Flags, srcStage: Flags, dstStage: Flags)

  /** The two layout changes of a texture upload: undefined to transfer target, then transfer target to shader input. */
  predicate SupportedTransition(oldLayout: int, newLayout: int)
  {
    || (oldLayout == LayoutUndefined && newLayout == LayoutTransferDstOptimal)
    || (oldLayout == LayoutTransferDstOptimal && newLayout == LayoutShaderReadOnlyOptimal)
  }

  /**
   * TransitionImageLayout's decision table: a barrier for the two supported
   * transitions, an invalid-argument error (and no barrier) for any other
   * pair of layouts.
   */
  function TransitionBarrier(oldLayout: int, newLayout: int): (r: Result<Barrier, string>)
    ensures r.Ok? <==> SupportedTransition(oldLayout, newLayout)
    ensures r.Ok? ==> r.value.oldLayout == oldLayout && r.value.newLayout == newLayout
    ensures r.Ok? ==> r.value.srcStage != 0 && r.value.dstStage != 0 && r.value.dstAccess != 0
  {
    if oldLayout == LayoutUndefined && newLayout == LayoutTransferDstOptimal then
      Ok(Barrier(oldLayout, newLayout, AccessNone, AccessTransferWrite, StageTopOfPipe, StageTransfer))
    else if oldLayout == LayoutTransferDstOptimal && newLayout == LayoutShaderReadOnlyOptimal then
      Ok(Barrier(oldLayout, newLayout, AccessTransferWrite, AccessShaderRead, StageTransfer, StageFragmentShader))
    else
      Err("unsupported layout transition!")
  }

  /**
   * The two barriers of an upload chain: the first waits on nothing and makes
   * the transfer write wait; the second waits on exactly that transfer write
   * and makes fragment-shader reads wait for it.
   */
  lemma UploadTransitionsChain()
    ensures var first := TransitionBarrier(LayoutUndefined, LayoutTransferDstOptimal);
            var second := TransitionBarrier(LayoutTransferDstOptimal, LayoutShaderReadOnlyOptimal);
            && first.Ok? && second.Ok?
            && first.value.srcAccess == AccessNone && first.value.srcStage == StageTopOfPipe
            && first.value.dstAccess == AccessTransferWrite && first.value.dstStage == StageTransfer
            && second.value.srcAccess == first.value.dstAccess && second.value.srcStage == first.value.dstStage
            && second.value.dstAccess == AccessShaderRead && second.value.dstStage == StageFragmentShader
  {
  }

  /** The staging buffer of a vertex or index upload: host-writable, kept mapped, holding the data. */
  function StagingDescription(bytes: seq<uint8>): (d: BufferDescription)
    ensures d.size == |bytes| && d.data == Some(bytes) && d.keepMapped
    ensures UsageFlagsOf(d.usage) == VkBufferTransferSrc
    ensures AllocationFlagsOf(d.allocationUsage, d.keepMapped) == VmaMapped | VmaHostAccessSequentialWrite
  {
    BufferDescription(|bytes|, Some(bytes), UsageTransferSource, HostWrite, true)
  }

  /** The device-local destination of a vertex upload, of the same size and with no data. */
  function VertexDestinationDescription(size: nat): (d: BufferDescription)
    ensures d.size == size && d.data.None? && !d.keepMapped
    ensures UsageFlagsOf(d.usage) == VkBufferVertex | VkBufferTransferDst
    ensures AllocationFlagsOf(d.allocationUsage, d.keepMapped) == VmaDedicatedMemory
  {
    BufferDescription(size, None, UsageVertex | UsageTransferDestination, DeviceLocal, false)
  }

  /** The device-local destination of an index upload, of the same size and with no data. */
  function IndexDestinationDescription(size: nat): (d: BufferDescription)
    ensures d.size == size && d.data.None? && !d.keepMapped
    ensures UsageFlagsOf(d.usage) == VkBufferIndex | VkBufferTransferDst
    ensures AllocationFlagsOf(d.allocationUsage, d.keepMapped) == VmaDedicatedMemory
  {
    BufferDescription(size, None, UsageIndex | UsageTransferDestination, DeviceLocal, false)
  }

  /** CreateUniformBuffer: a host-writable, kept-mapped uniform buffer of the given size with no data. */
  function UniformDescription(size: nat): (d: BufferDescription)
    ensures d.size == size && d.data.None? && d.keepMapped
    ensures UsageFlagsOf(d.usage) == VkBufferUniform
    ensures AllocationFlagsOf(d.allocationUsage, d.keepMapped) == VmaMapped | VmaHostAccessSequentialWrite
  {
    BufferDescription(size, None, UsageUniform, HostWrite, true)
  }

  /** The vertex records with input tables. */
  datatype VertexLayout = VertexColor | VertexTexture | VertexColorTexture

  const InputRateVertex: int := 0

  datatype BindingDescription = BindingDescription(binding: nat, stride: nat, inputRate: int)
  datatype AttributeDescription = AttributeDescription(binding: nat, location: nat, format: int, offset: nat)

  /** The byte size of a vertex record: a vec3 position (12), a vec4 colour (16), a vec2 texture coordinate (8). */
  function VertexSize(layout: VertexLayout): nat
  {
    match layout
    case VertexColor => 12 + 16
    case VertexTexture => 12 + 8
    case VertexColorTexture => 12 + 16 + 8
  }

  /** The byte size of an attribute format. */
  function FormatSize(format: int): nat
  {
    if format == FormatR32G32B32Sfloat then 12
    else if format == FormatR32G32B32A32Sfloat then 16
    else if format == FormatR32G32Sfloat then 8
    else 0
  }

  /** The format the shaders expect at each location: position, colour, texture coordinate. */
  function LocationFormat(location: nat): int
  {
    if location == 0 then FormatR32G32B32Sfloat
    else if location == 1 then FormatR32G32B32A32Sfloat
    else FormatR32G32Sfloat
  }

  /** Where the last attribute ends. */
  function AttributesEnd(attributes: seq<AttributeDescription>): nat
  {
    if |attributes| == 0 then 0 else attributes[|attributes| - 1].offset + FormatSize(attributes[|attributes| - 1].format)
  }

  /**
   * GetAttributeDescriptions: locations {0, 1} for VertexColor, {0, 2} for
   * VertexTexture and {0, 1, 2} for VertexColorTexture, every one on the given
   * binding, each location with the format the shaders expect there, laid
   * out back to back from offset 0 to the end of the record.
   */
  function AttributeDescriptions(layout: VertexLayout, shaderIndex: nat): (attributes: seq<AttributeDescription>)
    ensures |attributes| > 0 && attributes[0].offset == 0
    ensures forall k :: 0 <= k < |attributes| ==> attributes[k].binding == shaderIndex
    ensures forall k :: 0 <= k < |attributes| ==> attributes[k].format == LocationFormat(attributes[k].location)
    ensures forall k :: 0 <= k < |attributes| - 1 ==>
              attributes[k].location < attributes[k + 1].location && attributes[k + 1].offset == attributes[k].offset + FormatSize(attributes[k].format)
    ensures AttributesEnd(attributes) == VertexSize(layout)
    ensures layout.VertexColor? ==> |attributes| == 2 && attributes[1].location == 1
    ensures layout.VertexTexture? ==> |attributes| == 2 && attributes[1].location == 2
    ensures layout.VertexColorTexture? ==> |attributes| == 3 && attributes[1].location == 1 && attributes[2].location == 2
  {
    var position := AttributeDescription(shaderIndex, 0, FormatR32G32B32Sfloat, 0);
    match layout
    case VertexColor =>
      [position, AttributeDescription(shaderIndex, 1, FormatR32G32B32A32Sfloat, 12)]
    case VertexTexture =>
      [position, AttributeDescription(shaderIndex, 2, FormatR32G32Sfloat, 12)]
    case VertexColorTexture =>
      [position, AttributeDescription(shaderIndex, 1, FormatR32G32B32A32Sfloat, 12), AttributeDescription(shaderIndex, 2, FormatR32G32Sfloat, 28)]
  }

  /** GetBindingDescription: per-vertex input on the given binding, with a stride that covers every attribute. */
  function GetBindingDescription(layout: VertexLayout, shaderIndex: nat): (b: BindingDescription)
    ensures b.binding == shaderIndex && b.inputRate == InputRateVertex
    ensures b.stride == AttributesEnd(AttributeDescriptions(layout, shaderIndex))
  {
    BindingDescription(shaderIndex, VertexSize(layout), InputRateVertex)
  }
}
