/** Plain-data stand-ins for the Vulkan types, flag bits and constants that the setup code uses. */
module Vulkan {

  /** C++ `int` (32-bit two's complement). */
  newtype int32 = x: int | -0x8000_0000 <= x < 0x8000_0000

  /** `uint32_t`. */
  newtype uint32 = x: int | 0 <= x < 0x1_0000_0000

  const UINT32_MODULUS: int := 0x1_0000_0000

  /** `static_cast<uint32_t>` of an `int`: the value modulo 2^32. */
  function ToUint32(x: int32): (r: uint32)
    ensures x >= 0 ==> r as int == x as int
    ensures x < 0 ==> r as int == x as int + UINT32_MODULUS
    ensures ToInt32(r) == x
  {
    ((x as int) % UINT32_MODULUS) as uint32
  }

  /** Reading a `uint32_t` back as an `int` (two's complement). */
  function ToInt32(x: uint32): (r: int32)
  {
    if x < 0x8000_0000 then x as int as int32 else (x as int - UINT32_MODULUS) as int32
  }

  /** `static_cast<uint32_t>` of a container size: the size modulo 2^32. */
  function SizeToUint32(n: nat): (r: uint32)
    ensures n < UINT32_MODULUS ==> r as int == n
  {
    (n % UINT32_MODULUS) as uint32
  }

  /** `VkQueueFlags`, with the one bit selection looks at. */
  type QueueFlags = bv32
  const QUEUE_GRAPHICS_BIT: QueueFlags := 0x0000_0001

  /** A physical device, seen through what selection asks of it: the flags of its queue
      families, in family-index order (the answer of vkGetPhysicalDeviceQueueFamilyProperties). */
  type Device = seq<QueueFlags>

  /** `VkInstanceCreateFlags`. */
  type InstanceCreateFlags = bv32
  const INSTANCE_CREATE_ENUMERATE_PORTABILITY_BIT: InstanceCreateFlags := 0x0000_0001
  const PORTABILITY_ENUMERATION_EXTENSION_NAME: string := "VK_KHR_portability_enumeration"

  /** VK_MAKE_VERSION(1,0,0) == 1 << 22, and VK_API_VERSION_1_0 has the same encoding. */
  const VERSION_1_0_0: nat := 0x40_0000
  const API_VERSION_1_0: nat := 0x40_0000

  /** The status code a creation call returns. */
  datatype VkResult = Success | Error(code: int)

  datatype Extent2D = Extent2D(width: uint32, height: uint32)
}
