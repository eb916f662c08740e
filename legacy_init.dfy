/**
 * Device selection and logical-device set-up of the older Vulkan back end,
 * which keeps its state in namespace-level statics (modelled as the fields
 * of InitState).  The required device extensions are the fixed list
 * {VK_KHR_swapchain}.  Its failure paths construct a std::runtime_error
 * without throwing it, so they change nothing.
 *
 * CreateLogicalDevice always builds two queue infos, graphics then present,
 * each asking for the family's full queue count with a single priority.
 * When the two families coincide that names one family twice, and a count
 * above one reads past the one priority: both break the valid-usage rules
 * of VkDeviceCreateInfo and VkDeviceQueueCreateInfo in the Vulkan
 * specification.  CreateLogicalDeviceAsWritten keeps that construction;
 * CreateLogicalDevice builds one info per distinct family with one queue,
 * as the current back end does.
 */
module LegacyInit {
  import opened Wrappers
  import opened VulkanTypes
  import opened QueueFamilies
  import opened LegacyQueueFamilies
  import opened Device

  const SwapchainExtensionName: string := "VK_KHR_swapchain"

  /** vkPhysicalDeviceExtensions. */
  const DeviceExtensions: seq<string> := [SwapchainExtensionName]

  /** Priorities passed with every queue info: one. */
  const QueuePriorityCount: nat := 1

  /**
   * The Vulkan valid-usage rules on the queue infos: no family twice, and
   * every info asks for at least one queue and no more queues than it gives
   * priorities for.
   */
  predicate ValidQueueInfos(infos: seq<QueueCreateInfo>)
  {
    && (forall i, j :: 0 <= i < j < |infos| ==> infos[i].familyIndex != infos[j].familyIndex)
    && (forall k :: 0 <= k < |infos| ==> 1 <= infos[k].queueCount <= QueuePriorityCount)
  }

  /** CheckDeviceExtensionSupport: the swapchain extension is available. */
  method CheckDeviceExtensionSupport(device: PhysicalDevice) returns (supported: bool)
    ensures supported <==> SwapchainExtensionName in device.extensions
  {
    supported := Device.CheckDeviceExtensionSupport(device.extensions, DeviceExtensions);
  }

  /**
   * DeviceIsSuitable: anisotropy, a complete graphics/present scan and an
   * adequate swapchain, the last computed only when the extension is there.
   * Although the extension test is not one of the conjuncts, the answer is
   * exactly the current back end's suitability for the same extension list.
   */
  method DeviceIsSuitable(device: PhysicalDevice) returns (suitable: bool, swapchainQueried: bool)
    ensures suitable <==> Suitable(device, DeviceExtensions)
    ensures swapchainQueried <==> SwapchainExtensionName in device.extensions
  {
    var indices := FindGraphicsPresentQueueFamilyIndices(device.queueFamilies);
    var swapChainAdequate := false;
    swapchainQueried := false;
    var extensionsSupported := CheckDeviceExtensionSupport(device);
    if extensionsSupported {
      var support := device.swapchainSupport;
      swapchainQueried := true;
      swapChainAdequate := |support.formats| > 0 && |support.presentModes| > 0;
    }
    suitable := device.samplerAnisotropy && indices.IsComplete() && swapChainAdequate;
  }

  /** The statics of the older back end that device set-up writes. */
  class InitState {
    var physicalDevice: Option<nat>
    var queueCreateInfos: seq<QueueCreateInfo>
    var deviceExtensions: seq<string>
    var samplerAnisotropy: bool
    var graphicsQueue: Option<QueueHandle>
    var presentQueue: Option<QueueHandle>

    /** The statics before set-up: no device picked, no queues. */
    constructor()
      ensures physicalDevice.None? && queueCreateInfos == [] && graphicsQueue.None? && presentQueue.None?
    {
      physicalDevice := None;
      queueCreateInfos := [];
      deviceExtensions := [];
      samplerAnisotropy := false;
      graphicsQueue := None;
      presentQueue := None;
    }

    /**
     * PickPhysicalDevice: the first suitable device in enumeration order;
     * with no device, or none suitable, the error is not thrown and the
     * picked device stays as it was.
     */
    method PickPhysicalDevice(devices: seq<PhysicalDevice>)
      modifies this
      ensures queueCreateInfos == old(queueCreateInfos) && deviceExtensions == old(deviceExtensions)
      ensures samplerAnisotropy == old(samplerAnisotropy)
      ensures graphicsQueue == old(graphicsQueue) && presentQueue == old(presentQueue)
      ensures (exists i :: 0 <= i < |devices| && Suitable(devices[i], DeviceExtensions)) ==>
                && physicalDevice.Some? && physicalDevice.value < |devices|
                && Suitable(devices[physicalDevice.value], DeviceExtensions)
                && forall j :: 0 <= j < physicalDevice.value ==> !Suitable(devices[j], DeviceExtensions)
      ensures (forall i :: 0 <= i < |devices| ==> !Suitable(devices[i], DeviceExtensions)) ==> physicalDevice == old(physicalDevice)
    {
      for i := 0 to |devices|
        invariant forall j :: 0 <= j < i ==> !Suitable(devices[j], DeviceExtensions)
        invariant physicalDevice == old(physicalDevice) && queueCreateInfos == old(queueCreateInfos)
        invariant deviceExtensions == old(deviceExtensions) && samplerAnisotropy == old(samplerAnisotropy)
        invariant graphicsQueue == old(graphicsQueue) && presentQueue == old(presentQueue)
      {
        var suitable, _ := DeviceIsSuitable(devices[i]);
        if suitable {
          physicalDevice := Some(i);
          return;
        }
      }
    }

    /**
     * CreateLogicalDevice as written: two infos, graphics then present, each
     * with its family's full queue count, whether or not the families differ.
     */
    method CreateLogicalDeviceAsWritten(devices: seq<PhysicalDevice>)
      requires physicalDevice.Some? && physicalDevice.value < |devices|
      requires GraphicsFamilyOf(devices[physicalDevice.value].queueFamilies).IsComplete()
      modifies this
      ensures physicalDevice == old(physicalDevice)
      ensures deviceExtensions == DeviceExtensions && samplerAnisotropy
      ensures var families := devices[physicalDevice.value].queueFamilies;
              var family := GraphicsFamilyOf(families);
              && queueCreateInfos == [QueueCreateInfo(family.graphicsIndex.value, families[family.graphicsIndex.value].queueCount),
                                      QueueCreateInfo(family.presentIndex.value, families[family.presentIndex.value].queueCount)]
              && graphicsQueue == Some(QueueHandle(family.graphicsIndex.value, 0))
              && presentQueue == Some(QueueHandle(family.presentIndex.value, 0))
    {
      var indices := FindGraphicsPresentQueueFamilyIndices(devices[physicalDevice.value].queueFamilies);
      var infos: seq<QueueCreateInfo> := [];
      var familyCount := 2;
      for i := 0 to familyCount
        invariant |infos| == i
        invariant i > 0 ==> infos[0] == QueueCreateInfo(indices.graphicsFamily.value.index, indices.graphicsFamily.value.queueCount)
        invariant i > 1 ==> infos[1] == QueueCreateInfo(indices.presentFamily.value.index, indices.presentFamily.value.queueCount)
      {
        if i == 0 {
          infos := infos + [QueueCreateInfo(indices.graphicsFamily.value.index, indices.graphicsFamily.value.queueCount)];
        } else {
          infos := infos + [QueueCreateInfo(indices.presentFamily.value.index, indices.presentFamily.value.queueCount)];
        }
      }
      queueCreateInfos := infos;
      deviceExtensions := DeviceExtensions;
      samplerAnisotropy := true;
      graphicsQueue := Some(QueueHandle(indices.graphicsFamily.value.index, 0));
      presentQueue := Some(QueueHandle(indices.presentFamily.value.index, 0));
    }

    /**
     * CreateLogicalDevice with one single-queue info per distinct family:
     * the infos obey the valid-usage rules and cover the graphics and the
     * present family.
     */
    method CreateLogicalDevice(devices: seq<PhysicalDevice>)
      requires physicalDevice.Some? && physicalDevice.value < |devices|
      requires GraphicsFamilyOf(devices[physicalDevice.value].queueFamilies).IsComplete()
      modifies this
      ensures physicalDevice == old(physicalDevice)
      ensures deviceExtensions == DeviceExtensions && samplerAnisotropy
      ensures ValidQueueInfos(queueCreateInfos)
      ensures var family := GraphicsFamilyOf(devices[physicalDevice.value].queueFamilies);
              && |queueCreateInfos| == (if family.graphicsIndex == family.presentIndex then 1 else 2)
              && (forall k :: 0 <= k < |queueCreateInfos| ==>
                    queueCreateInfos[k].familyIndex == family.graphicsIndex.value || queueCreateInfos[k].familyIndex == family.presentIndex.value)
              && (exists k :: 0 <= k < |queueCreateInfos| && queueCreateInfos[k].familyIndex == family.graphicsIndex.value)
              && (exists k :: 0 <= k < |queueCreateInfos| && queueCreateInfos[k].familyIndex == family.presentIndex.value)
              && graphicsQueue == Some(QueueHandle(family.graphicsIndex.value, 0))
              && presentQueue == Some(QueueHandle(family.presentIndex.value, 0))
    {
      var indices := FindGraphicsPresentQueueFamilyIndices(devices[physicalDevice.value].queueFamilies);
      var infos := UniqueQueueCreateInfos(indices.graphicsFamily.value.index, indices.presentFamily.value.index);
      queueCreateInfos := infos;
      deviceExtensions := DeviceExtensions;
      samplerAnisotropy := true;
      graphicsQueue := Some(QueueHandle(indices.graphicsFamily.value.index, 0));
      presentQueue := Some(QueueHandle(indices.presentFamily.value.index, 0));
    }
  }

  /** A device with one family that does graphics, presents and has four queues. */
  const SingleFamilyDevice := PhysicalDevice(
    [QueueFamilyInfo(QueueGraphics, 4, true)],
    DeviceExtensions,
    true,
    SwapchainSupport(SurfaceCapabilities(2, 3, Extent(800, 600), Extent(1, 1), Extent(4096, 4096)),
                     [SurfaceFormat(FormatB8G8R8A8Srgb, ColorSpaceSrgbNonlinear)], [PresentModeFifo]))

  /**
   * On SingleFamilyDevice the set-up as written asks for family 0 twice,
   * with four queues each and one priority: invalid queue infos.
   */
  method DuplicateQueueInfosScenario() returns (infos: seq<QueueCreateInfo>)
    ensures infos == [QueueCreateInfo(0, 4), QueueCreateInfo(0, 4)]
    ensures !ValidQueueInfos(infos)
  {
    var state := new InitState();
    var devices := [SingleFamilyDevice];
    assert Offers(devices[0].queueFamilies[0], Graphics) && Offers(devices[0].queueFamilies[0], Present);
    assert Suitable(devices[0], DeviceExtensions);
    state.PickPhysicalDevice(devices);
    state.CreateLogicalDeviceAsWritten(devices);
    infos := state.queueCreateInfos;
    assert infos[0].familyIndex == infos[1].familyIndex;
  }

  /** On the same device the corrected set-up asks for family 0 once, with one queue. */
  method UniqueQueueInfosScenario() returns (infos: seq<QueueCreateInfo>)
    ensures infos == [QueueCreateInfo(0, 1)]
    ensures ValidQueueInfos(infos)
  {
    var state := new InitState();
    var devices := [SingleFamilyDevice];
    assert Offers(devices[0].queueFamilies[0], Graphics) && Offers(devices[0].queueFamilies[0], Present);
    assert Suitable(devices[0], DeviceExtensions);
    state.PickPhysicalDevice(devices);
    state.CreateLogicalDevice(devices);
    infos := state.queueCreateInfos;
  }
}
