/**
 * VulkanBuffer: a GPU buffer created through the memory allocator from an
 * engine-level BufferDescription.  The engine's BufferUsage and
 * BufferAllocationUsage bit sets are translated into Vulkan usage flags and
 * allocator flags; the allocator itself is outside the model, so each
 * buffer records the calls it makes on it, and the allocator hands out
 * fresh buffer handles (a counter).
 */
module VulkanBuffer {
  import opened Wrappers
  import opened CoreBuffer
  import opened VulkanTypes

  // BufferUsage, a bit set over a 32-bit value: the engine's `|` and `&`
  // on it are the bitwise operators of bv32.
  const UsageNone: Flags := 0
  const UsageVertex: Flags := 1
  const UsageIndex: Flags := 2
  const UsageUniform: Flags := 4
  const UsageStorage: Flags := 8
  const UsageIndirect: Flags := 16
  const UsageTransferSource: Flags := 32
  const UsageTransferDestination: Flags := 64

  // BufferAllocationUsage
  const AllocationNone: Flags := 0
  const HostWrite: Flags := 1
  const HostRead: Flags := 2
  const DeviceLocal: Flags := 4

  /** A buffer description: size in bytes, optional initial data, usage bits, allocation bits, persistent mapping. */
  datatype BufferDescription = BufferDescription(size: nat, data: Option<seq<uint8>>, usage: Flags, allocationUsage: Flags, keepMapped: bool)

  /** The description's field defaults: size 0, no data, Vertex, HostWrite, not kept mapped. */
  const DefaultDescription: BufferDescription := BufferDescription(0, None, UsageVertex, HostWrite, false)

  const AllocationFlagMask: Flags := VmaMapped | VmaDedicatedMemory | VmaHostAccessSequentialWrite | VmaHostAccessRandom
  const VkUsageMask: Flags := VkBufferVertex | VkBufferIndex | VkBufferUniform | VkBufferStorage | VkBufferTransferSrc | VkBufferTransferDst | VkBufferIndirect

  /**
   * The allocator flags for an allocation usage: MAPPED exactly when kept
   * mapped; device-local memory gets a dedicated allocation and no host
   * access; otherwise host-write asks for sequential writes, taking
   * precedence over host-read, which asks for random access.
   */
  function AllocationFlagsOf(allocationUsage: Flags, keepMapped: bool): (r: Flags)
    ensures HasAll(r, VmaMapped) <==> keepMapped
    ensures HasAll(r, VmaDedicatedMemory) <==> HasAll(allocationUsage, DeviceLocal)
    ensures HasAll(r, VmaHostAccessSequentialWrite) <==> !HasAll(allocationUsage, DeviceLocal) && HasAll(allocationUsage, HostWrite)
    ensures HasAll(r, VmaHostAccessRandom) <==> !HasAll(allocationUsage, DeviceLocal) && !HasAll(allocationUsage, HostWrite) && HasAll(allocationUsage, HostRead)
    ensures !(HasAll(r, VmaHostAccessSequentialWrite) && HasAll(r, VmaHostAccessRandom))
    ensures r & !AllocationFlagMask == 0
  {
    var mapped: Flags := if keepMapped then VmaMapped else 0;
    var access: Flags :=
      if HasAll(allocationUsage, DeviceLocal) then VmaDedicatedMemory
      else if HasAll(allocationUsage, HostWrite) then VmaHostAccessSequentialWrite
      else if HasAll(allocationUsage, HostRead) then VmaHostAccessRandom
      else 0;
    mapped | access
  }

  /**
   * The Vulkan usage flags for an engine usage: at most one of VERTEX, INDEX,
   * UNIFORM and STORAGE, chosen in that order of precedence, plus the
   * transfer and indirect bits each on its own.  The result is non-zero
   * exactly when the usage has one of the seven defined bits.
   */
  function UsageFlagsOf(usage: Flags): (r: Flags)
    ensures HasAll(r, VkBufferVertex) <==> HasAll(usage, UsageVertex)
    ensures HasAll(r, VkBufferIndex) <==> !HasAll(usage, UsageVertex) && HasAll(usage, UsageIndex)
    ensures HasAll(r, VkBufferUniform) <==> !HasAll(usage, UsageVertex) && !HasAll(usage, UsageIndex) && HasAll(usage, UsageUniform)
    ensures HasAll(r, VkBufferStorage) <==>
              !HasAll(usage, UsageVertex) && !HasAll(usage, UsageIndex) && !HasAll(usage, UsageUniform) && HasAll(usage, UsageStorage)
    ensures HasAll(r, VkBufferTransferSrc) <==> HasAll(usage, UsageTransferSource)
    ensures HasAll(r, VkBufferTransferDst) <==> HasAll(usage, UsageTransferDestination)
    ensures HasAll(r, VkBufferIndirect) <==> HasAll(usage, UsageIndirect)
    ensures r & !VkUsageMask == 0
    ensures r != 0 <==> usage & 0x7F != 0
  {
    var main: Flags :=
      if HasAll(usage, UsageVertex) then VkBufferVertex
      else if HasAll(usage, UsageIndex) then VkBufferIndex
      else if HasAll(usage, UsageUniform) then VkBufferUniform
      else if HasAll(usage, UsageStorage) then VkBufferStorage
      else 0;
    var source: Flags := if HasAll(usage, UsageTransferSource) then VkBufferTransferSrc else 0;
    var destination: Flags := if HasAll(usage, UsageTransferDestination) then VkBufferTransferDst else 0;
    var indirect: Flags := if HasAll(usage, UsageIndirect) then VkBufferIndirect else 0;
    main | source | destination | indirect
  }

  /** CreateBuffer's accumulation of the allocator flags with `|=`. */
  method AllocationFlagsFor(allocationUsage: Flags, keepMapped: bool) returns (flags: Flags)
    ensures flags == AllocationFlagsOf(allocationUsage, keepMapped)
  {
    flags := 0;
    if keepMapped {
      flags := flags | VmaMapped;
    }
    if HasAll(allocationUsage, DeviceLocal) {
      flags := flags | VmaDedicatedMemory;
    } else {
      if HasAll(allocationUsage, HostWrite) {
        flags := flags | VmaHostAccessSequentialWrite;
      } else if HasAll(allocationUsage, HostRead) {
        flags := flags | VmaHostAccessRandom;
      }
    }
  }

  /** CreateBuffer's accumulation of the Vulkan usage flags with `|=`. */
  method UsageFlagsFor(usage: Flags) returns (flags: Flags)
    ensures flags == UsageFlagsOf(usage)
  {
    flags := 0;
    if HasAll(usage, UsageVertex) {
      flags := flags | VkBufferVertex;
    } else if HasAll(usage, UsageIndex) {
      flags := flags | VkBufferIndex;
    } else if HasAll(usage, UsageUniform) {
      flags := flags | VkBufferUniform;
    } else if HasAll(usage, UsageStorage) {
      flags := flags | VkBufferStorage;
    }
    if HasAll(usage, UsageTransferSource) {
      flags := flags | VkBufferTransferSrc;
    }
    if HasAll(usage, UsageTransferDestination) {
      flags := flags | VkBufferTransferDst;
    }
    if HasAll(usage, UsageIndirect) {
      flags := flags | VkBufferIndirect;
    }
  }

  /** A call the buffer makes on the allocator; buffers are named by their handles. */
  datatype AllocatorCall =
    | CreateBufferCall(size: nat, usage: Flags, allocationFlags: Flags, buffer: nat)
    | MapMemory(buffer: nat)
    | UnmapMemory(buffer: nat)
    | CopyToMemory(buffer: nat, bytes: seq<uint8>)
    | DestroyBuffer(buffer: nat)

  class VulkanBuffer {
    var usage: Flags
    var allocationUsage: Flags
    var keepMapped: bool
    var size: nat
    /** The current buffer and its allocation, named by one handle. */
    var buffer: Option<nat>
    /** The persistently mapped address, named by the buffer whose memory it maps. */
    var mappedData: Option<nat>
    var calls: seq<AllocatorCall>
    var nextHandle: nat

    /** A buffer exists, its handle was handed out before, and a kept-mapped buffer's mapped address is that of its current memory. */
    ghost predicate Valid()
      reads this
    {
      buffer.Some? && buffer.value < nextHandle && (keepMapped ==> mappedData == buffer)
    }

    /** VulkanBuffer(description): keeps usage, allocation usage, size and mapping, then creates the buffer. */
    constructor (description: BufferDescription)
      requires description.data.Some? ==> |description.data.value| >= description.size
      ensures Valid()
      ensures usage == description.usage && allocationUsage == description.allocationUsage
      ensures keepMapped == description.keepMapped && size == description.size
      ensures buffer == Some(0) && |calls| > 0
      ensures calls[0] == CreateBufferCall(description.size, UsageFlagsOf(description.usage), AllocationFlagsOf(description.allocationUsage, description.keepMapped), 0)
      ensures description.data.Some? ==> calls[1..] == [MapMemory(buffer.value), CopyToMemory(buffer.value, description.data.value[..description.size]), UnmapMemory(buffer.value)]
      ensures description.data.None? ==> |calls| == 1
    {
      usage := description.usage;
      allocationUsage := description.allocationUsage;
      size := description.size;
      keepMapped := description.keepMapped;
      buffer := None;
      mappedData := None;
      calls := [];
      nextHandle := 0;
      new;
      CreateBuffer(description);
    }

    /**
     * CreateBuffer: a new buffer of the described size is created first, its
     * initial data (if any) copied in through a map/unmap pair, and only then
     * is the previous buffer, if there was one, destroyed.
     */
    method CreateBuffer(description: BufferDescription)
      requires description.data.Some? ==> |description.data.value| >= description.size
      requires description.keepMapped == keepMapped
      modifies this
      ensures Valid()
      ensures usage == old(usage) && allocationUsage == old(allocationUsage) && keepMapped == old(keepMapped)
      ensures size == description.size
      ensures buffer == Some(old(nextHandle)) && nextHandle == old(nextHandle) + 1
      ensures !keepMapped ==> mappedData == old(mappedData)
      ensures |calls| > |old(calls)| && calls[..|old(calls)|] == old(calls)
      ensures var created := calls[|old(calls)|];
              created == CreateBufferCall(description.size, UsageFlagsOf(description.usage), AllocationFlagsOf(allocationUsage, description.keepMapped), old(nextHandle))
      ensures var rest := calls[|old(calls)| + 1..];
              rest == (if description.data.Some? then [MapMemory(old(nextHandle)), CopyToMemory(old(nextHandle), description.data.value[..description.size]), UnmapMemory(old(nextHandle))] else [])
                      + (if old(buffer).Some? then [DestroyBuffer(old(buffer).value)] else [])
    {
      size := description.size;
      var allocationFlags := AllocationFlagsFor(allocationUsage, description.keepMapped);
      var bufferUsage := UsageFlagsFor(description.usage);
      var oldBuffer := buffer;
      var handle := nextHandle;
      nextHandle := nextHandle + 1;
      buffer := Some(handle);
      calls := calls + [CreateBufferCall(description.size, bufferUsage, allocationFlags, handle)];
      if description.keepMapped {
        mappedData := Some(handle);
      }
      if description.data.Some? {
        calls := calls + [MapMemory(handle), CopyToMemory(handle, description.data.value[..description.size]), UnmapMemory(handle)];
      }
      if oldBuffer.Some? {
        calls := calls + [DestroyBuffer(oldBuffer.value)];
      }
    }

    /** Map: the kept mapping when the buffer is kept mapped; otherwise the allocator maps the memory. */
    method Map() returns (address: Option<nat>)
      requires Valid()
      modifies this
      ensures Valid() && buffer == old(buffer) && mappedData == old(mappedData) && size == old(size)
      ensures keepMapped ==> address == mappedData && calls == old(calls)
      ensures !keepMapped ==> address == buffer && calls == old(calls) + [MapMemory(buffer.value)]
    {
      if keepMapped {
        return mappedData;
      }
      calls := calls + [MapMemory(buffer.value)];
      address := buffer;
    }

    /** Unmap: nothing for a kept-mapped buffer; otherwise the allocator unmaps the memory. */
    method Unmap()
      requires Valid()
      modifies this
      ensures Valid() && buffer == old(buffer) && mappedData == old(mappedData) && size == old(size)
      ensures keepMapped ==> calls == old(calls)
      ensures !keepMapped ==> calls == old(calls) + [UnmapMemory(buffer.value)]
    {
      if keepMapped {
        return;
      }
      calls := calls + [UnmapMemory(buffer.value)];
    }

    /** Resize(n): a new buffer of n bytes with the same usage, allocation usage and mapping replaces the old one. */
    method Resize(n: nat)
      requires Valid()
      modifies this
      ensures Valid() && size == n
      ensures usage == old(usage) && allocationUsage == old(allocationUsage) && keepMapped == old(keepMapped)
      ensures buffer == Some(old(nextHandle)) && buffer != old(buffer)
      ensures |calls| == |old(calls)| + 2 && calls[..|old(calls)|] == old(calls)
      ensures calls[|old(calls)|] == CreateBufferCall(n, UsageFlagsOf(usage), AllocationFlagsOf(allocationUsage, keepMapped), old(nextHandle))
      ensures calls[|old(calls)| + 1] == DestroyBuffer(old(buffer).value)
    {
      size := n;
      CreateBuffer(BufferDescription(size, None, usage, allocationUsage, keepMapped));
    }
  }
}
