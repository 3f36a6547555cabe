/** The create-info `createLogicalDevice` hands to vkCreateDevice (src/main.cpp). */
module DeviceConfig {
  import opened Wrappers
  import opened Vulkan
  import opened QueueSelection
  import opened InstanceConfig

  datatype DeviceQueueCreateInfo = DeviceQueueCreateInfo(
    queueFamilyIndex: nat,
    queueCount: nat,
    queuePriorities: seq<real>)

  /** `pEnabledFeatures` points at an all-false feature set and is not represented. */
  datatype DeviceCreateInfo = DeviceCreateInfo(
    queueCreateInfoCount: nat,
    queueCreateInfos: seq<DeviceQueueCreateInfo>,
    enabledExtensionCount: nat,
    enabledLayerCount: uint32,
    enabledLayerNames: seq<string>)

  /** One queue of priority 1.0 from the graphics family, no device extensions, and the same
      layers as the instance. Reading `graphicsFamily.value()` needs the family to be present. */
  function DeviceCreateInfoFor(indices: QueueFamilyIndices, enableValidationLayers: bool,
                               validationLayers: seq<string>): (createInfo: DeviceCreateInfo)
    requires indices.IsComplete()
    ensures createInfo.queueCreateInfoCount == |createInfo.queueCreateInfos| == 1
    ensures createInfo.queueCreateInfos[0].queueFamilyIndex == indices.graphicsFamily.value
    ensures createInfo.queueCreateInfos[0].queueCount == |createInfo.queueCreateInfos[0].queuePriorities| == 1
    ensures createInfo.queueCreateInfos[0].queuePriorities == [1.0]
    ensures createInfo.enabledExtensionCount == 0
    ensures enableValidationLayers ==>
              createInfo.enabledLayerNames == validationLayers &&
              createInfo.enabledLayerCount as int == |validationLayers| % UINT32_MODULUS
    ensures !enableValidationLayers ==>
              createInfo.enabledLayerNames == [] && createInfo.enabledLayerCount == 0
  {
    var queueCreateInfo := DeviceQueueCreateInfo(indices.graphicsFamily.value, 1, [1.0]);
    DeviceCreateInfo(
      1, [queueCreateInfo], 0,
      if enableValidationLayers then SizeToUint32(|validationLayers|) else 0,
      EnabledLayerNames(enableValidationLayers, validationLayers))
  }
}
