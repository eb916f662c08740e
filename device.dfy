/**
 * Physical-device selection and logical-device set-up of the current Vulkan
 * back end.  A physical device is described by what the engine queries from
 * it: its queue families, its extension names, whether it supports sampler
 * anisotropy, and its swapchain support for the window surface.  Devices
 * are identified by their position in the enumeration.
 */
module Device {
  import opened Wrappers
  import opened VulkanTypes
  import opened QueueFamilies

  /** What the engine can learn about one physical device. */
  datatype PhysicalDevice = PhysicalDevice(
    queueFamilies: seq<QueueFamilyInfo>,
    extensions: seq<string>,
    samplerAnisotropy: bool,
    swapchainSupport: SwapchainSupport)

  /** Every required extension name is among the available ones. */
  predicate ExtensionsSupported(available: seq<string>, required: seq<string>)
  {
    forall e :: e in required ==> e in available
  }

  /**
   * CheckDeviceExtensionSupport: starts from the set of required names,
   * erases every available name from it, and answers whether it ended empty.
   */
  method CheckDeviceExtensionSupport(available: seq<string>, required: seq<string>) returns (supported: bool)
    ensures supported <==> ExtensionsSupported(available, required)
  {
    var missing := set e | e in required;
    for i := 0 to |available|
      invariant missing == set e | e in required && e !in available[..i]
    {
      missing := missing - {available[i]};
    }
    assert available[..|available|] == available;
    supported := missing == {};
    assert supported ==> forall e :: e in required ==> e !in missing;
    if !supported {
      var e :| e in missing;
      assert e in required && e !in available;
    }
  }

  /**
   * A device is suitable when some family does graphics, some family can
   * present, every required extension is there, the surface offers at least
   * one format and one present mode, and sampler anisotropy is supported.
   */
  predicate Suitable(device: PhysicalDevice, required: seq<string>)
  {
    && (exists j :: 0 <= j < |device.queueFamilies| && Offers(device.queueFamilies[j], Graphics))
    && (exists j :: 0 <= j < |device.queueFamilies| && Offers(device.queueFamilies[j], Present))
    && ExtensionsSupported(device.extensions, required)
    && |device.swapchainSupport.formats| > 0
    && |device.swapchainSupport.presentModes| > 0
    && device.samplerAnisotropy
  }

  /**
   * IsDeviceSuitable: the graphics/present scan is complete, the extensions
   * are supported, the swapchain is adequate and anisotropy is available.
   * The swapchain support is queried only once the extensions are known to
   * be there; swapchainQueried says whether it was.
   */
  method IsDeviceSuitable(device: PhysicalDevice, required: seq<string>) returns (suitable: bool, swapchainQueried: bool)
    ensures suitable <==> Suitable(device, required)
    ensures swapchainQueried <==> ExtensionsSupported(device.extensions, required)
  {
    var family := GetGraphicsFamily(device.queueFamilies);
    var extensionsSupported := CheckDeviceExtensionSupport(device.extensions, required);
    var swapChainAdequate := false;
    swapchainQueried := false;
    if extensionsSupported {
      var support := device.swapchainSupport;
      swapchainQueried := true;
      swapChainAdequate := |support.formats| > 0 && |support.presentModes| > 0;
    }
    suitable := family.IsComplete() && extensionsSupported && swapChainAdequate && device.samplerAnisotropy;
  }

  /** One queue create info: the family and how many of its queues are requested. */
  datatype QueueCreateInfo = QueueCreateInfo(familyIndex: nat, queueCount: nat)

  /** What CreateLogicalDevice passes to vkCreateDevice. */
  datatype DeviceCreateInfo = DeviceCreateInfo(queueInfos: seq<QueueCreateInfo>, samplerAnisotropy: bool, extensions: seq<string>)

  /** A queue fetched from the logical device: family and queue index. */
  datatype QueueHandle = QueueHandle(familyIndex: nat, queueIndex: nat)

  /**
   * The queue infos of CreateLogicalDevice: one info requesting one queue
   * for each distinct family in {graphics, present}, in increasing family
   * order (the iteration order of a std::set).
   */
  method UniqueQueueCreateInfos(graphics: nat, present: nat) returns (infos: seq<QueueCreateInfo>)
    ensures |infos| == if graphics == present then 1 else 2
    ensures forall k :: 0 <= k < |infos| ==> infos[k].queueCount == 1
    ensures forall k :: 0 <= k < |infos| ==> infos[k].familyIndex == graphics || infos[k].familyIndex == present
    ensures exists k :: 0 <= k < |infos| && infos[k].familyIndex == graphics
    ensures exists k :: 0 <= k < |infos| && infos[k].familyIndex == present
    ensures forall i, j :: 0 <= i < j < |infos| ==> infos[i].familyIndex < infos[j].familyIndex
  {
    var uniqueFamilies := if graphics < present then [graphics, present]
                          else if present < graphics then [present, graphics]
                          else [graphics];
    infos := [];
    for k := 0 to |uniqueFamilies|
      invariant |infos| == k
      invariant forall m :: 0 <= m < k ==> infos[m] == QueueCreateInfo(uniqueFamilies[m], 1)
    {
      infos := infos + [QueueCreateInfo(uniqueFamilies[k], 1)];
    }
    assert infos[0].familyIndex == uniqueFamilies[0];
    assert infos[|infos| - 1].familyIndex == uniqueFamilies[|uniqueFamilies| - 1];
  }

  /** The device wrapper: the picked physical device and what the logical device was created with. */
  class VulkanDevice {
    var physicalDevice: Option<nat>
    var createInfo: Option<DeviceCreateInfo>
    var graphicsQueue: Option<QueueHandle>
    var presentQueue: Option<QueueHandle>

    /**
     * The constructor picks a physical device and creates the logical device
     * on it.  The logical device needs the picked device's graphics/present
     * scan to be complete, so some enumerated device must be suitable.
     */
    constructor(devices: seq<PhysicalDevice>, extensions: seq<string>)
      requires exists i :: 0 <= i < |devices| && Suitable(devices[i], extensions)
      ensures physicalDevice.Some? && physicalDevice.value < |devices|
      ensures Suitable(devices[physicalDevice.value], extensions)
      ensures forall j :: 0 <= j < physicalDevice.value ==> !Suitable(devices[j], extensions)
      ensures createInfo.Some? && createInfo.value.extensions == extensions && createInfo.value.samplerAnisotropy
    {
      physicalDevice := None;
      createInfo := None;
      graphicsQueue := None;
      presentQueue := None;
      new;
      PickPhysicalDevice(devices, extensions);
      CreateLogicalDevice(devices, extensions);
    }

    /**
     * PickPhysicalDevice: the first suitable device in enumeration order.
     * The asserts that some device exists and that one was found are compiled
     * out, so with no suitable device the member keeps its value.
     */
    method PickPhysicalDevice(devices: seq<PhysicalDevice>, extensions: seq<string>)
      modifies this
      ensures createInfo == old(createInfo) && graphicsQueue == old(graphicsQueue) && presentQueue == old(presentQueue)
      ensures (exists i :: 0 <= i < |devices| && Suitable(devices[i], extensions)) ==>
                && physicalDevice.Some? && physicalDevice.value < |devices|
                && Suitable(devices[physicalDevice.value], extensions)
                && forall j :: 0 <= j < physicalDevice.value ==> !Suitable(devices[j], extensions)
      ensures (forall i :: 0 <= i < |devices| ==> !Suitable(devices[i], extensions)) ==> physicalDevice == old(physicalDevice)
    {
      for i := 0 to |devices|
        invariant forall j :: 0 <= j < i ==> !Suitable(devices[j], extensions)
        invariant physicalDevice == old(physicalDevice)
        invariant createInfo == old(createInfo) && graphicsQueue == old(graphicsQueue) && presentQueue == old(presentQueue)
      {
        var suitable, _ := IsDeviceSuitable(devices[i], extensions);
        if suitable {
          physicalDevice := Some(i);
          return;
        }
      }
    }

    /**
     * CreateLogicalDevice: queue infos for the distinct graphics and present
     * families, sampler anisotropy on, exactly the given extensions; then
     * queue 0 of the graphics family and of the present family.
     */
    method CreateLogicalDevice(devices: seq<PhysicalDevice>, extensions: seq<string>)
      requires physicalDevice.Some? && physicalDevice.value < |devices|
      requires GraphicsFamilyOf(devices[physicalDevice.value].queueFamilies).IsComplete()
      modifies this
      ensures physicalDevice == old(physicalDevice)
      ensures createInfo.Some? && createInfo.value.extensions == extensions && createInfo.value.samplerAnisotropy
      ensures var family := GraphicsFamilyOf(devices[physicalDevice.value].queueFamilies);
              && graphicsQueue == Some(QueueHandle(family.graphicsIndex.value, 0))
              && presentQueue == Some(QueueHandle(family.presentIndex.value, 0))
              && |createInfo.value.queueInfos| == (if family.graphicsIndex == family.presentIndex then 1 else 2)
              && (forall k :: 0 <= k < |createInfo.value.queueInfos| ==>
                    createInfo.value.queueInfos[k].queueCount == 1
                    && createInfo.value.queueInfos[k].familyIndex in {family.graphicsIndex.value, family.presentIndex.value})
              && (forall i, j :: 0 <= i < j < |createInfo.value.queueInfos| ==>
                    createInfo.value.queueInfos[i].familyIndex != createInfo.value.queueInfos[j].familyIndex)
    {
      var family := GetGraphicsFamily(devices[physicalDevice.value].queueFamilies);
      var infos := UniqueQueueCreateInfos(family.graphicsIndex.value, family.presentIndex.value);
      createInfo := Some(DeviceCreateInfo(infos, true, extensions));
      graphicsQueue := Some(QueueHandle(family.graphicsIndex.value, 0));
      presentQueue := Some(QueueHandle(family.presentIndex.value, 0));
    }
  }
}
