/**
 * The `Renderer` object: its fields with their initial values, the set-up of
 * layers, extensions and debug reporting, device selection and creation, and
 * teardown. Driver calls are replaced by their results, passed in as
 * parameters.
 */
module Engine {
  import opened Vulkan
  import opened QueueFamilies
  import opened Suitability
  import opened Ranking

  /** The process either goes on with a value or terminates through `std::exit(code)`. */
  datatype Outcome<T> = Done(value: T) | Exited(code: int)

  /** The exit code of an unrecoverable start-up failure: `std::exit(-1)`. */
  const EXIT_CODE: int := -1

  /** The debug report flags the renderer asks for: warnings, performance warnings and errors. */
  const DEBUG_CALLBACK_FLAGS: bv32 :=
    VK_DEBUG_REPORT_WARNING_BIT_EXT | VK_DEBUG_REPORT_PERFORMANCE_WARNING_BIT_EXT | VK_DEBUG_REPORT_ERROR_BIT_EXT

  /** What `InitDevice` hands the driver: the device create info, then the family and index of the queue it fetches. */
  datatype DeviceSetup = DeviceSetup(createInfo: DeviceCreateInfo, queueFamilyIndex: U32, queueIndex: U32)

  class Renderer {
    var surface: Option<Handle>
    var instance: Option<Handle>
    var gpu: seq<Handle>
    var queueFamilyIndices: seq<QueueFamilyIndices>
    var device: Option<Handle>
    var queue: Option<Handle>
    var gpuProperties: DeviceProperties
    var gpuMemoryProperties: MemoryProperties
    var instanceLayers: seq<string>
    var instanceExtensions: seq<string>
    var deviceExtensions: seq<string>
    var debugReport: Option<Handle>
    var debugCallbackCreateInfo: DebugReportCallbackCreateInfo

    /** The handle passed to each `vkDestroyDevice` call made so far. */
    ghost var destroyDeviceCalls: seq<Option<Handle>>

    /**
     * `_gpu` and `_queue_family_indices` run in parallel; a created device was
     * selected from a non-empty `_gpu`; and no created device is ever destroyed,
     * since the destroy call is made only with a null handle.
     */
    ghost predicate Valid()
      reads this
    {
      |gpu| == |queueFamilyIndices| &&
      (device.Some? ==> gpu != []) &&
      forall call :: call in destroyDeviceCalls ==> call == None
    }

    /** The field initialisers of the class: null handles, empty lists, zeroed structures. */
    constructor ()
      ensures Valid()
      ensures surface == None && instance == None && device == None && queue == None && debugReport == None
      ensures gpu == [] && queueFamilyIndices == []
      ensures instanceLayers == [] && instanceExtensions == [] && deviceExtensions == []
      ensures gpuProperties == ZERO_DEVICE_PROPERTIES && gpuMemoryProperties == ZERO_MEMORY_PROPERTIES
      ensures debugCallbackCreateInfo == ZERO_DEBUG_REPORT_CALLBACK_CREATE_INFO
      ensures destroyDeviceCalls == []
    {
      surface := None;
      instance := None;
      gpu := [];
      queueFamilyIndices := [];
      device := None;
      queue := None;
      gpuProperties := ZERO_DEVICE_PROPERTIES;
      gpuMemoryProperties := ZERO_MEMORY_PROPERTIES;
      instanceLayers := [];
      instanceExtensions := [];
      deviceExtensions := [];
      debugReport := None;
      debugCallbackCreateInfo := ZERO_DEBUG_REPORT_CALLBACK_CREATE_INFO;
      destroyDeviceCalls := [];
    }

    /** `GetVulkanInstance`: a `const` read of `_instance`. */
    function GetVulkanInstance(): (handle: Option<Handle>)
      reads this
      ensures handle == instance
    {
      instance
    }

    /**
     * `_gpu.front()`, defined only on a non-empty `_gpu`. In a valid renderer
     * the graphics queue-family index is then defined as well.
     */
    function GetVulkanPhysicalDevice(): (handle: Handle)
      reads this
      requires gpu != []
      ensures handle == gpu[0]
      ensures Valid() ==> queueFamilyIndices != []
    {
      gpu[0]
    }

    /** `_device`. In a valid renderer a device handle exists only once a physical device is in `_gpu`. */
    function GetVulkanDevice(): (handle: Option<Handle>)
      reads this
      ensures handle == device
      ensures Valid() && handle.Some? ==> gpu != []
    {
      device
    }

    /** `GetVulkanQueue`: a `const` read of `_queue`. */
    function GetVulkanQueue(): (handle: Option<Handle>)
      reads this
      ensures handle == queue
    {
      queue
    }

    /**
     * `_queue_family_indices.front().graphicsFamily`, defined only on a
     * non-empty list; in a valid renderer `_gpu.front()` is then defined too.
     */
    function GetVulkanGraphicsQueueFamilyIndex(): (family: U32)
      reads this
      requires queueFamilyIndices != []
      ensures family == queueFamilyIndices[0].graphicsFamily
      ensures Valid() ==> gpu != []
    {
      queueFamilyIndices[0].graphicsFamily
    }

    /** `GetVulkanPhysicalDeviceProperties`: a `const` read of `_gpu_properties`. */
    function GetVulkanPhysicalDeviceProperties(): (properties: DeviceProperties)
      reads this
      ensures properties == gpuProperties
    {
      gpuProperties
    }

    /** `GetVulkanPhysicalDeviceMemoryProperties`: a `const` read of `_gpu_memory_properties`. */
    function GetVulkanPhysicalDeviceMemoryProperties(): (properties: MemoryProperties)
      reads this
      ensures properties == gpuMemoryProperties
    {
      gpuMemoryProperties
    }

    /**
     * Appends the surface extension and then the extensions the platform
     * layer requires to the instance extensions, and the swapchain extension to
     * the device extensions.
     */
    method SetupLayersAndExtensions(platformExtensions: seq<string>)
      modifies this`instanceExtensions, this`deviceExtensions
      ensures instanceExtensions == old(instanceExtensions) + [VK_KHR_SURFACE_EXTENSION_NAME] + platformExtensions
      ensures deviceExtensions == old(deviceExtensions) + [VK_KHR_SWAPCHAIN_EXTENSION_NAME]
    {
      instanceExtensions := instanceExtensions + [VK_KHR_SURFACE_EXTENSION_NAME];
      instanceExtensions := instanceExtensions + platformExtensions;
      deviceExtensions := deviceExtensions + [VK_KHR_SWAPCHAIN_EXTENSION_NAME];
    }

    /**
     * Fills the debug callback create info (warnings, performance warnings and
     * errors, reported to the renderer's callback), appends the standard
     * validation layer and then the debug report extension.
     */
    method SetupDebug()
      modifies this`debugCallbackCreateInfo, this`instanceLayers, this`instanceExtensions
      ensures debugCallbackCreateInfo == DebugReportCallbackCreateInfo(DEBUG_CALLBACK_FLAGS, true)
      ensures instanceLayers == old(instanceLayers) + [STANDARD_VALIDATION_LAYER_NAME]
      ensures instanceExtensions == old(instanceExtensions) + [VK_EXT_DEBUG_REPORT_EXTENSION_NAME]
    {
      debugCallbackCreateInfo := DebugReportCallbackCreateInfo(DEBUG_CALLBACK_FLAGS, true);
      instanceLayers := instanceLayers + [STANDARD_VALIDATION_LAYER_NAME];
      instanceExtensions := instanceExtensions + [VK_EXT_DEBUG_REPORT_EXTENSION_NAME];
    }

    /**
     * Hands the current layers, extensions and debug callback create info to
     * `vkCreateInstance` and keeps the instance it returns (`createdInstance`).
     */
    method CreateInstance(createdInstance: Handle) returns (info: InstanceCreateInfo)
      modifies this`instance
      ensures info == InstanceCreateInfo(instanceLayers, instanceExtensions, debugCallbackCreateInfo)
      ensures instance == Some(createdInstance)
    {
      info := InstanceCreateInfo(instanceLayers, instanceExtensions, debugCallbackCreateInfo);
      instance := Some(createdInstance);
    }

    /**
     * Looks up the two debug report entry points (`functionsResolved` says
     * whether both were found): if either is missing the process exits with
     * -1. Otherwise the callback is created from `_debug_callback_create_info`,
     * which is returned, and the handle the driver reports is kept.
     */
    method InitDebug(functionsResolved: bool, createdCallback: Handle)
      returns (outcome: Outcome<DebugReportCallbackCreateInfo>)
      modifies this`debugReport
      ensures outcome == if functionsResolved then Done(debugCallbackCreateInfo) else Exited(EXIT_CODE)
      ensures debugReport == if functionsResolved then Some(createdCallback) else old(debugReport)
    {
      if !functionsResolved {
        outcome := Exited(EXIT_CODE);
        return;
      }
      debugReport := Some(createdCallback);
      outcome := Done(debugCallbackCreateInfo);
    }

    /** Unregisters the debug callback and clears its handle. */
    method DeInitDebug()
      modifies this`debugReport
      ensures debugReport == None
    {
      debugReport := None;
    }

    /** Destroys the instance and clears its handle. */
    method DestroyInstance()
      modifies this`instance
      ensures instance == None
    {
      instance := None;
    }

    /**
     * The body of the constructor: layers and extensions, debug set-up,
     * instance creation, then debug registration, which may end the process.
     */
    method Initialize(platformExtensions: seq<string>, createdInstance: Handle,
                      debugFunctionsResolved: bool, createdCallback: Handle)
      returns (outcome: Outcome<InstanceCreateInfo>)
      modifies this`instanceExtensions, this`deviceExtensions, this`instanceLayers,
               this`debugCallbackCreateInfo, this`instance, this`debugReport
      ensures instanceExtensions == old(instanceExtensions) + [VK_KHR_SURFACE_EXTENSION_NAME] +
                                    platformExtensions + [VK_EXT_DEBUG_REPORT_EXTENSION_NAME]
      ensures deviceExtensions == old(deviceExtensions) + [VK_KHR_SWAPCHAIN_EXTENSION_NAME]
      ensures instanceLayers == old(instanceLayers) + [STANDARD_VALIDATION_LAYER_NAME]
      ensures debugCallbackCreateInfo == DebugReportCallbackCreateInfo(DEBUG_CALLBACK_FLAGS, true)
      ensures instance == Some(createdInstance)
      ensures debugReport == if debugFunctionsResolved then Some(createdCallback) else old(debugReport)
      ensures outcome == if debugFunctionsResolved
                         then Done(InstanceCreateInfo(instanceLayers, instanceExtensions, debugCallbackCreateInfo))
                         else Exited(EXIT_CODE)
    {
      SetupLayersAndExtensions(platformExtensions);
      SetupDebug();
      var info := CreateInstance(createdInstance);
      var debugOutcome := InitDebug(debugFunctionsResolved, createdCallback);
      if debugOutcome.Exited? {
        outcome := Exited(debugOutcome.code);
        return;
      }
      outcome := Done(info);
    }

    /**
     * Selects a physical device and creates the logical device and its queue.
     * `devices` is what enumeration and the property, feature, queue-family and
     * surface-support queries report, in enumeration order; `createdDevice` and
     * `createdQueue` are the handles `vkCreateDevice` and `vkGetDeviceQueue`
     * return. The model assumes a single call, on a renderer whose `_gpu` is
     * still empty.
     *
     * When no device scores above zero the process exits with -1 before any
     * field changes. Otherwise `_gpu` and `_queue_family_indices` hold the
     * ranking position by position, its front is the device with the highest
     * score (the earliest enumerated among equal scores), and exactly one queue
     * is requested, on that device's graphics family.
     */
    method InitDevice(devices: seq<PhysicalDevice>, createdDevice: Handle, createdQueue: Handle)
      returns (outcome: Outcome<DeviceSetup>)
      requires Valid()
      requires gpu == [] && queueFamilyIndices == []
      modifies this`gpu, this`queueFamilyIndices, this`gpuProperties, this`gpuMemoryProperties,
               this`device, this`queue
      ensures Valid()
      ensures outcome.Exited? <==> !HasSuitableDevice(devices)
      ensures outcome.Exited? ==>
        outcome.code == EXIT_CODE && gpu == [] && queueFamilyIndices == [] &&
        device == old(device) && queue == old(queue) &&
        gpuProperties == old(gpuProperties) && gpuMemoryProperties == old(gpuMemoryProperties)
      ensures outcome.Done? ==>
        |gpu| == |Ranked(devices)| &&
        forall k :: 0 <= k < |gpu| ==>
          gpu[k] == Ranked(devices)[k].device.handle && queueFamilyIndices[k] == Ranked(devices)[k].indices
      ensures outcome.Done? ==>
        var selected := Selected(devices);
        gpu != [] && GetVulkanPhysicalDevice() == selected.device.handle &&
        GetVulkanGraphicsQueueFamilyIndex() == selected.indices.graphicsFamily &&
        gpuProperties == selected.device.properties &&
        gpuMemoryProperties == selected.device.memoryProperties &&
        device == Some(createdDevice) && queue == Some(createdQueue) &&
        outcome.value == DeviceSetup(
          DeviceCreateInfo(selected.device.handle,
                           [DeviceQueueCreateInfo(selected.indices.graphicsFamily, 1)],
                           deviceExtensions),
          selected.indices.graphicsFamily, 0)
    {
      var rankedDevices := RankDevices(devices);
      RankedEmptyIffNoneQualifies(devices);

      if |rankedDevices| > 0 {
        StoreRanking(rankedDevices);
      } else {
        outcome := Exited(EXIT_CODE);
        return;
      }
      SelectedIsFront(devices);
      var setup := CreateDevice(rankedDevices[0].device, createdDevice, createdQueue);
      outcome := Done(setup);
    }

    /** Appends the ranking, front to back, to `_gpu` and `_queue_family_indices`. */
    method StoreRanking(rankedDevices: seq<Candidate>)
      modifies this`gpu, this`queueFamilyIndices
      ensures |gpu| == |old(gpu)| + |rankedDevices| && |queueFamilyIndices| == |old(queueFamilyIndices)| + |rankedDevices|
      ensures gpu[..|old(gpu)|] == old(gpu) && queueFamilyIndices[..|old(queueFamilyIndices)|] == old(queueFamilyIndices)
      ensures forall k :: 0 <= k < |rankedDevices| ==>
        gpu[|old(gpu)| + k] == rankedDevices[k].device.handle &&
        queueFamilyIndices[|old(queueFamilyIndices)| + k] == rankedDevices[k].indices
    {
      var j := 0;
      while j < |rankedDevices|
        invariant 0 <= j <= |rankedDevices|
        invariant |gpu| == |old(gpu)| + j && |queueFamilyIndices| == |old(queueFamilyIndices)| + j
        invariant gpu[..|old(gpu)|] == old(gpu) && queueFamilyIndices[..|old(queueFamilyIndices)|] == old(queueFamilyIndices)
        invariant forall k :: 0 <= k < j ==>
          gpu[|old(gpu)| + k] == rankedDevices[k].device.handle &&
          queueFamilyIndices[|old(queueFamilyIndices)| + k] == rankedDevices[k].indices
      {
        gpu := gpu + [rankedDevices[j].device.handle];
        queueFamilyIndices := queueFamilyIndices + [rankedDevices[j].indices];
        j := j + 1;
      }
    }

    /**
     * The second half of `InitDevice`, once `_gpu` is filled: the properties of
     * the front device are queried (`front` is its record), one queue is
     * requested on its graphics family, the device is created, and queue 0 of
     * that family is fetched.
     */
    method CreateDevice(front: PhysicalDevice, createdDevice: Handle, createdQueue: Handle)
      returns (setup: DeviceSetup)
      requires gpu != [] && queueFamilyIndices != [] && front.handle == gpu[0]
      modifies this`gpuProperties, this`gpuMemoryProperties, this`device, this`queue
      ensures gpuProperties == front.properties && gpuMemoryProperties == front.memoryProperties
      ensures device == Some(createdDevice) && queue == Some(createdQueue)
      ensures setup == DeviceSetup(
        DeviceCreateInfo(gpu[0], [DeviceQueueCreateInfo(queueFamilyIndices[0].graphicsFamily, 1)], deviceExtensions),
        queueFamilyIndices[0].graphicsFamily, 0)
    {
      gpuProperties := front.properties;
      gpuMemoryProperties := front.memoryProperties;
      var queueCreateInfo := DeviceQueueCreateInfo(queueFamilyIndices[0].graphicsFamily, 1);
      var createInfo := DeviceCreateInfo(gpu[0], [queueCreateInfo], deviceExtensions);
      device := Some(createdDevice);
      queue := Some(createdQueue);
      setup := DeviceSetup(createInfo, queueFamilyIndices[0].graphicsFamily, 0);
    }

    /**
     * Device teardown as written: `vkDestroyDevice` is called only when the
     * handle is already null, and the handle is then cleared. A created device
     * is therefore never destroyed, and a second call leaves the handle null.
     */
    method DeInitDevice()
      requires Valid()
      modifies this`device, this`destroyDeviceCalls
      ensures Valid()
      ensures device == None
      ensures destroyDeviceCalls == old(destroyDeviceCalls) + (if old(device) == None then [None] else [])
    {
      if device == None {
        destroyDeviceCalls := destroyDeviceCalls + [device];
      }
      device := None;
    }

    /** The destructor: device teardown, then the debug callback, then the instance. */
    method Shutdown()
      requires Valid()
      modifies this`device, this`destroyDeviceCalls, this`debugReport, this`instance
      ensures Valid()
      ensures device == None && debugReport == None && instance == None
      ensures destroyDeviceCalls == old(destroyDeviceCalls) + (if old(device) == None then [None] else [])
    {
      DeInitDevice();
      DeInitDebug();
      DestroyInstance();
    }
  }

  /**
   * The first half of `InitDevice`: every enumerated device is scanned for
   * queue families and scored, and the ones with a positive score are inserted
   * into the multimap, which comes out as `Ranked(devices)`.
   */
  method RankDevices(devices: seq<PhysicalDevice>) returns (rankedDevices: seq<Candidate>)
    ensures rankedDevices == Ranked(devices)
  {
    ghost var candidates := Enumerated(devices);
    rankedDevices := [];
    var k := 0;
    while k < |devices|
      invariant 0 <= k <= |devices|
      invariant rankedDevices == RankingOf(candidates[..k])
    {
      ghost var before := rankedDevices;
      var currentDevice := devices[k];
      var indices := FindQueueFamilies(currentDevice.queueFamilies);
      var score := if indices.IsComplete() then RateDeviceSuitability(currentDevice) else 0;
      ghost var c := Candidate(score, k, currentDevice, indices);
      assert candidates[k] == c;
      if score > 0 {
        rankedDevices := Insert(rankedDevices, Candidate(score, k, currentDevice, indices));
      }
      assert rankedDevices == if c.score > 0 then Insert(before, c) else before;
      RankingOfStep(candidates, k);
      k := k + 1;
    }
    assert candidates[..|devices|] == candidates;
  }

  /**
   * `new Renderer()`: the field initialisers followed by the constructor body.
   * The lists come out exactly as the source builds them.
   */
  method NewRenderer(platformExtensions: seq<string>, createdInstance: Handle,
                     debugFunctionsResolved: bool, createdCallback: Handle)
    returns (renderer: Renderer, outcome: Outcome<InstanceCreateInfo>)
    ensures fresh(renderer) && renderer.Valid()
    ensures renderer.instanceExtensions ==
      [VK_KHR_SURFACE_EXTENSION_NAME] + platformExtensions + [VK_EXT_DEBUG_REPORT_EXTENSION_NAME]
    ensures renderer.deviceExtensions == [VK_KHR_SWAPCHAIN_EXTENSION_NAME]
    ensures renderer.instanceLayers == [STANDARD_VALIDATION_LAYER_NAME]
    ensures renderer.debugCallbackCreateInfo == DebugReportCallbackCreateInfo(DEBUG_CALLBACK_FLAGS, true)
    ensures renderer.instance == Some(createdInstance)
    ensures renderer.debugReport == if debugFunctionsResolved then Some(createdCallback) else None
    ensures renderer.gpu == [] && renderer.queueFamilyIndices == [] && renderer.device == None && renderer.queue == None
    ensures renderer.destroyDeviceCalls == []
    ensures outcome == if debugFunctionsResolved
                       then Done(InstanceCreateInfo(renderer.instanceLayers, renderer.instanceExtensions,
                                                    renderer.debugCallbackCreateInfo))
                       else Exited(EXIT_CODE)
  {
    renderer := new Renderer();
    outcome := renderer.Initialize(platformExtensions, createdInstance, debugFunctionsResolved, createdCallback);
  }

  /** The debug flags ask for warnings, performance warnings and errors, and for no other severity. */
  lemma DebugCallbackFlagsExactly()
    ensures DEBUG_CALLBACK_FLAGS & VK_DEBUG_REPORT_WARNING_BIT_EXT != 0
    ensures DEBUG_CALLBACK_FLAGS & VK_DEBUG_REPORT_PERFORMANCE_WARNING_BIT_EXT != 0
    ensures DEBUG_CALLBACK_FLAGS & VK_DEBUG_REPORT_ERROR_BIT_EXT != 0
    ensures DEBUG_CALLBACK_FLAGS & VK_DEBUG_REPORT_INFORMATION_BIT_EXT == 0
    ensures DEBUG_CALLBACK_FLAGS & VK_DEBUG_REPORT_DEBUG_BIT_EXT == 0
    ensures DEBUG_CALLBACK_FLAGS == 0x0E
  {
  }

  /** Tearing down twice: the second call finds a null handle and leaves it null. */
  method DeInitDeviceTwice(renderer: Renderer)
    requires renderer.Valid()
    modifies renderer`device, renderer`destroyDeviceCalls
    ensures renderer.Valid() && renderer.device == None
    ensures renderer.destroyDeviceCalls ==
      old(renderer.destroyDeviceCalls) + (if old(renderer.device) == None then [None, None] else [None])
  {
    renderer.DeInitDevice();
    renderer.DeInitDevice();
  }
}
