/**
 * The parts of the Vulkan API that the renderer reads and writes, as plain
 * values. Every driver query is replaced by the data it would answer with, and
 * every driver object by an opaque handle; VK_NULL_HANDLE is `None`.
 */
module Vulkan {

  /** Number of values of a `uint32_t`. */
  const U32_LIMIT: int := 0x1_0000_0000

  /** A `uint32_t`. */
  type U32 = x: int | 0 <= x < U32_LIMIT

  /** `UINT32_MAX`, the value a `uint32_t` takes when assigned -1. */
  const UINT32_MAX: U32 := 0xFFFF_FFFF

  /** Conversion of an arbitrary integer to `uint32_t` (reduction modulo 2^32). */
  function ToU32(x: int): (u: U32)
    ensures (u - x) % U32_LIMIT == 0
  {
    x % U32_LIMIT
  }

  /** Conversion of a `uint32_t` to a 32-bit `int` (two's complement). */
  function ToInt32(u: U32): (i: int)
    ensures -0x8000_0000 <= i < 0x8000_0000
    ensures ToU32(i) == u
  {
    if u < 0x8000_0000 then u else u - U32_LIMIT
  }

  datatype Option<T> = None | Some(value: T)

  /** An opaque, non-null driver object (instance, physical device, device, queue, callback). */
  datatype Handle = Handle(id: nat)

  /** `VkQueueFlagBits::VK_QUEUE_GRAPHICS_BIT`. */
  const VK_QUEUE_GRAPHICS_BIT: bv32 := 0x0000_0001

  /** `VkPhysicalDeviceType`; the zero value of the enumeration is `Other`. */
  datatype PhysicalDeviceType = Other | IntegratedGpu | DiscreteGpu | VirtualGpu | Cpu

  /** The fields of `VkPhysicalDeviceProperties` the renderer looks at. */
  datatype DeviceProperties = DeviceProperties(deviceType: PhysicalDeviceType, maxImageDimension2D: U32)

  /** A zero-initialised `VkPhysicalDeviceProperties` (`= {}`). */
  const ZERO_DEVICE_PROPERTIES: DeviceProperties := DeviceProperties(Other, 0)

  /** The field of `VkPhysicalDeviceFeatures` the renderer looks at. */
  datatype DeviceFeatures = DeviceFeatures(geometryShader: bool)

  /** `VkPhysicalDeviceMemoryProperties`, reduced to its two counts. */
  datatype MemoryProperties = MemoryProperties(memoryTypeCount: U32, memoryHeapCount: U32)

  /** A zero-initialised `VkPhysicalDeviceMemoryProperties` (`= {}`). */
  const ZERO_MEMORY_PROPERTIES: MemoryProperties := MemoryProperties(0, 0)

  /**
   * One queue family of a physical device: its `VkQueueFamilyProperties` fields
   * and the answer of `vkGetPhysicalDeviceSurfaceSupportKHR` for this family and
   * the surface handed to `InitDevice`.
   */
  datatype QueueFamily = QueueFamily(queueFlags: bv32, queueCount: U32, presentSupport: bool)

  /**
   * Everything the driver reports about one enumerated physical device: its
   * handle, its queue families in index order, its properties, its features and
   * its memory properties.
   */
  datatype PhysicalDevice = PhysicalDevice(
    handle: Handle,
    queueFamilies: seq<QueueFamily>,
    properties: DeviceProperties,
    features: DeviceFeatures,
    memoryProperties: MemoryProperties)

  /** `VkDeviceQueueCreateInfo` without its priority array. */
  datatype DeviceQueueCreateInfo = DeviceQueueCreateInfo(queueFamilyIndex: U32, queueCount: U32)

  /** What `vkCreateDevice` is handed: the physical device and its `VkDeviceCreateInfo`. */
  datatype DeviceCreateInfo = DeviceCreateInfo(
    physicalDevice: Handle,
    queueCreateInfos: seq<DeviceQueueCreateInfo>,
    enabledExtensionNames: seq<string>)

  /** `VkDebugReportFlagBitsEXT`. */
  const VK_DEBUG_REPORT_INFORMATION_BIT_EXT: bv32 := 0x0000_0001
  const VK_DEBUG_REPORT_WARNING_BIT_EXT: bv32 := 0x0000_0002
  const VK_DEBUG_REPORT_PERFORMANCE_WARNING_BIT_EXT: bv32 := 0x0000_0004
  const VK_DEBUG_REPORT_ERROR_BIT_EXT: bv32 := 0x0000_0008
  const VK_DEBUG_REPORT_DEBUG_BIT_EXT: bv32 := 0x0000_0010

  /**
   * `VkDebugReportCallbackCreateInfoEXT`: its flags and whether `pfnCallback`
   * points at the renderer's callback (null in a zero-initialised value).
   */
  datatype DebugReportCallbackCreateInfo = DebugReportCallbackCreateInfo(flags: bv32, callbackSet: bool)

  const ZERO_DEBUG_REPORT_CALLBACK_CREATE_INFO: DebugReportCallbackCreateInfo :=
    DebugReportCallbackCreateInfo(0, false)

  /** What `vkCreateInstance` is handed: layers, extensions and the chained debug create info. */
  datatype InstanceCreateInfo = InstanceCreateInfo(
    enabledLayerNames: seq<string>,
    enabledExtensionNames: seq<string>,
    debugCallback: DebugReportCallbackCreateInfo)

  const VK_KHR_SURFACE_EXTENSION_NAME: string := "VK_KHR_surface"
  const VK_KHR_SWAPCHAIN_EXTENSION_NAME: string := "VK_KHR_swapchain"
  const VK_EXT_DEBUG_REPORT_EXTENSION_NAME: string := "VK_EXT_debug_report"
  const STANDARD_VALIDATION_LAYER_NAME: string := "VK_LAYER_LUNARG_standard_validation"

  /** `VK_FALSE` / `VK_TRUE` as `VkBool32`. */
  const VK_FALSE: U32 := 0
  const VK_TRUE: U32 := 1
}
