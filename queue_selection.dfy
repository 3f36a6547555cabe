/** Queue-family and physical-device selection: `QueueFamilyIndices`, `findQueueFamily`,
    `isDeviceSuitable` and the first-match rule of `pickPhysicalDevice` (src/main.cpp). */
module QueueSelection {
  import opened Wrappers
  import opened Vulkan

  /** `queueFlags & VK_QUEUE_GRAPHICS_BIT` is non-zero. */
  predicate SupportsGraphics(flags: QueueFlags)
  {
    flags & QUEUE_GRAPHICS_BIT != 0
  }

  /** The index of the first element of `s` that satisfies `p`, or None when no element does. */
  function FirstIndex<T>(s: seq<T>, p: T -> bool): (r: Option<nat>)
    ensures r.Some? ==> r.value < |s| && p(s[r.value])
    ensures r.Some? ==> forall j :: 0 <= j < r.value ==> !p(s[j])
    ensures r.None? <==> forall j :: 0 <= j < |s| ==> !p(s[j])
  {
    if |s| == 0 then None
    else if p(s[0]) then Some(0)
    else
      match FirstIndex(s[1..], p)
      case None =>
        assert forall j :: 1 <= j < |s| ==> s[j] == s[1..][j - 1];
        None
      case Some(i) =>
        assert forall j :: 1 <= j <= i ==> s[j] == s[1..][j - 1];
        Some(i + 1)
  }

  /** `QueueFamilyIndices`: the graphics family, once one has been found. */
  datatype QueueFamilyIndices = QueueFamilyIndices(graphicsFamily: Option<nat>)
  {
    /** `isComplete`: the optional graphics family holds a value. */
    predicate IsComplete(): (r: bool)
      ensures r <==> graphicsFamily != None
    {
      graphicsFamily.Some?
    }
  }

  /** The family index `findQueueFamily` settles on. */
  function FirstGraphicsFamily(families: Device): (family: Option<nat>)
  {
    FirstIndex(families, SupportsGraphics)
  }

  /** `findQueueFamily`: walk the families in index order and stop at the first one whose
      flags carry the graphics bit. */
  method FindQueueFamily(families: Device) returns (indices: QueueFamilyIndices)
    ensures indices.graphicsFamily == FirstGraphicsFamily(families)
    ensures indices.IsComplete() <==> exists j :: 0 <= j < |families| && SupportsGraphics(families[j])
    ensures indices.IsComplete() ==> indices.graphicsFamily.value < |families|
  {
    indices := QueueFamilyIndices(None);
    var i := 0;
    while i < |families|
      invariant 0 <= i <= |families|
      invariant indices.graphicsFamily.None?
      invariant forall j :: 0 <= j < i ==> !SupportsGraphics(families[j])
    {
      if SupportsGraphics(families[i]) {
        indices := indices.(graphicsFamily := Some(i));
      }
      if indices.IsComplete() {
        break;
      }
      i := i + 1;
    }
  }

  /** `isDeviceSuitable`: the device has a graphics-capable queue family. */
  predicate IsDeviceSuitable(device: Device): (r: bool)
    ensures r <==> exists j :: 0 <= j < |device| && SupportsGraphics(device[j])
  {
    QueueFamilyIndices(FirstGraphicsFamily(device)).IsComplete()
  }

  /** The device `pickPhysicalDevice` keeps: the first suitable one in enumeration order. */
  function FirstSuitableDevice(devices: seq<Device>): (device: Option<nat>)
  {
    FirstIndex(devices, IsDeviceSuitable)
  }

  /** A device chosen by the first-match rule has a graphics family, so `graphicsFamily.value()`
      in `createLogicalDevice` is defined, and that family is a valid index. */
  lemma ChosenDeviceHasGraphicsFamily(devices: seq<Device>)
    requires FirstSuitableDevice(devices).Some?
    ensures FirstSuitableDevice(devices).value < |devices|
    ensures FirstGraphicsFamily(devices[FirstSuitableDevice(devices).value]).Some?
    ensures FirstGraphicsFamily(devices[FirstSuitableDevice(devices).value]).value
            < |devices[FirstSuitableDevice(devices).value]|
  {
  }
}
