/** `HelloTriangeApplication` (src/main.cpp): the setup sequence `run` drives, with the foreign
    GLFW and Vulkan calls replaced by a script of their answers, and the handles it owns kept as a
    stack of live resources. */
module Application {
  import opened Wrappers
  import opened Vulkan
  import opened QueueSelection
  import opened InstanceConfig
  import opened DeviceConfig

  /** The handles the application owns. */
  datatype Resource = Window | Instance | Surface | LogicalDevice

  /** The order in which `run` creates them. */
  const CREATION_ORDER: seq<Resource> := [Window, Instance, Surface, LogicalDevice]

  const VALIDATION_LAYERS: seq<string> := ["VK_LAYER_KHRONOS_validation"]

  /** The `std::runtime_error`s thrown during initialisation. */
  datatype InitError =
    | ValidationLayersUnavailable
    | InstanceCreationFailed
    | SurfaceCreationFailed
    | NoGpuFound
    | NoSuitableGpu
    | LogicalDeviceCreationFailed

  function Message(e: InitError): (message: string)
  {
    match e
    case ValidationLayersUnavailable => "validation layer requested, but not available!"
    case InstanceCreationFailed => "failed to create instance!"
    case SurfaceCreationFailed => "failed to create window surface!"
    case NoGpuFound => "No GPU found with Vulkan support!"
    case NoSuitableGpu => "failed to find suitable GPU!"
    case LogicalDeviceCreationFailed => "failed to create logical device!"
  }

  /** What the foreign calls answer: GLFW's required instance extensions, the installed layers,
      the status of each creation call, and the physical devices with their queue families. */
  datatype Platform = Platform(
    requiredInstanceExtensions: seq<string>,
    availableLayers: seq<string>,
    createInstanceResult: VkResult,
    createSurfaceResult: VkResult,
    physicalDevices: seq<Device>,
    createDeviceResult: VkResult)
  {
    /** GLFW reports the extension count as a `uint32_t`. */
    predicate WellFormed()
    {
      |requiredInstanceExtensions| < UINT32_MODULUS
    }
  }

  /** The arguments of glfwCreateWindow and the window hints in force. */
  datatype WindowConfig = WindowConfig(width: uint32, height: uint32, title: string, noClientApi: bool, resizable: bool)

  /** The queue vkGetDeviceQueue hands back: family index and queue index within it. */
  datatype QueueHandle = QueueHandle(familyIndex: nat, queueIndex: nat)

  /** Where `initVulkan` stops: the exception of the first step that throws, or Pass. */
  ghost function InitOutcome(p: Platform, enableValidationLayers: bool, validationLayers: seq<string>): (outcome: Outcome<InitError>)
  {
    if enableValidationLayers && !AllFoundAsWritten(validationLayers, p.availableLayers) then Fail(ValidationLayersUnavailable)
    else if p.createInstanceResult != Success then Fail(InstanceCreationFailed)
    else if p.createSurfaceResult != Success then Fail(SurfaceCreationFailed)
    else if |p.physicalDevices| == 0 then Fail(NoGpuFound)
    else if FirstSuitableDevice(p.physicalDevices).None? then Fail(NoSuitableGpu)
    else if p.createDeviceResult != Success then Fail(LogicalDeviceCreationFailed)
    else Pass
  }

  /** `initVulkan` got past `createInstance`. */
  predicate InstanceCreated(outcome: Outcome<InitError>)
  {
    outcome != Fail(ValidationLayersUnavailable) && outcome != Fail(InstanceCreationFailed)
  }

  /** `initVulkan` got past `createSurface`. */
  predicate SurfaceCreated(outcome: Outcome<InitError>)
  {
    InstanceCreated(outcome) && outcome != Fail(SurfaceCreationFailed)
  }

  /** The Vulkan handles `initVulkan` has created when it ends with the given outcome. */
  function VulkanResourcesCreated(outcome: Outcome<InitError>): (resources: seq<Resource>)
  {
    if !InstanceCreated(outcome) then []
    else if !SurfaceCreated(outcome) then [Instance]
    else if outcome.Fail? then [Instance, Surface]
    else [Instance, Surface, LogicalDevice]
  }

  function Reverse<T>(s: seq<T>): (r: seq<T>)
    ensures |r| == |s|
    ensures forall i :: 0 <= i < |s| ==> r[i] == s[|s| - 1 - i]
  {
    if s == [] then [] else Reverse(s[1..]) + [s[0]]
  }

  /** Initialisation succeeds exactly when validation is off or the layer check of line 238 passes
      as written, the creation calls succeed, and some enumerated device has a graphics queue family. */
  lemma InitSucceedsIff(p: Platform, enableValidationLayers: bool, validationLayers: seq<string>)
    ensures InitOutcome(p, enableValidationLayers, validationLayers) == Pass <==>
            (enableValidationLayers ==> AllFoundAsWritten(validationLayers, p.availableLayers)) &&
            p.createInstanceResult == Success && p.createSurfaceResult == Success &&
            p.createDeviceResult == Success &&
            exists k, j :: 0 <= k < |p.physicalDevices| && 0 <= j < |p.physicalDevices[k]| &&
                           SupportsGraphics(p.physicalDevices[k][j])
  {
  }

  /** "failed to find suitable GPU!" is thrown only when there are devices and none of them has a
      graphics-capable queue family. */
  lemma NoSuitableGpuMeansNoGraphicsFamily(p: Platform, enableValidationLayers: bool, validationLayers: seq<string>)
    requires InitOutcome(p, enableValidationLayers, validationLayers) == Fail(NoSuitableGpu)
    ensures |p.physicalDevices| > 0
    ensures forall k, j :: 0 <= k < |p.physicalDevices| && 0 <= j < |p.physicalDevices[k]| ==>
                           !SupportsGraphics(p.physicalDevices[k][j])
  {
  }

  /** With validation on and exactly the Khronos validation layer installed, `run` throws
      "validation layer requested, but not available!", whatever the rest of the platform answers. */
  lemma InstalledValidationLayerIsRejected(p: Platform)
    requires p.availableLayers == VALIDATION_LAYERS
    ensures InitOutcome(p, true, VALIDATION_LAYERS) == Fail(ValidationLayersUnavailable)
  {
    AsWrittenRejectsInstalledLayer(VALIDATION_LAYERS[0]);
  }

  /** The diagnostic `main` prints names the failing step: no two initialisation errors share a
      message. */
  lemma MessagesIdentifyErrors(e1: InitError, e2: InitError)
    ensures Message(e1) == Message(e2) ==> e1 == e2
  {
  }

  /** The handles `initVulkan` pushes one at a time add up to its creation lists. */
  lemma AppendedInOrder(s: seq<Resource>)
    ensures s + [] == s
    ensures s + [Instance] + [Surface] == s + [Instance, Surface]
    ensures s + [Instance, Surface] + [LogicalDevice] == s + [Instance, Surface, LogicalDevice]
  {
  }

  class HelloTriangleApplication {
    const WIDTH: uint32
    const HEIGHT: uint32
    const validationLayers: seq<string>
    const enableValidationLayers: bool

    var window: Option<WindowConfig>
    var instance: Option<InstanceCreateInfo>
    /** The window the surface was created for; None while no surface exists. */
    var surface: Option<WindowConfig>
    /** Index into the enumerated devices; None is VK_NULL_HANDLE. */
    var physicalDevice: Option<nat>
    var device: Option<DeviceCreateInfo>
    var graphicsQueue: Option<QueueHandle>
    var glfwInitialized: bool

    /** Bookkeeping of the model, not fields of the source: handles created and not yet
        destroyed, oldest first. */
    ghost var live: seq<Resource>
    /** Every handle ever created, and every handle destroyed, in order. */
    ghost var created: seq<Resource>
    ghost var destroyed: seq<Resource>

    /** The create-info `createLogicalDevice` builds for a suitable device. */
    function LogicalDeviceFor(families: Device): (createInfo: DeviceCreateInfo)
      requires IsDeviceSuitable(families)
    {
      DeviceCreateInfoFor(QueueFamilyIndices(FirstGraphicsFamily(families)), enableValidationLayers, validationLayers)
    }

    /** Every live resource has its handle field set. Destroying a resource does not clear its
        field: like the source, the model keeps the stale handle after `cleanup`. */
    ghost predicate LiveHandlesSet()
      reads this
    {
      && (Window in live ==> window.Some?)
      && (Instance in live ==> instance.Some?)
      && (Surface in live ==> surface.Some?)
      && (LogicalDevice in live ==> device.Some? && graphicsQueue.Some?)
    }

    /** `enableValidationLayers` is a build-time constant of the source (true unless NDEBUG). */
    constructor (enableValidationLayers: bool)
      ensures this.enableValidationLayers == enableValidationLayers
      ensures validationLayers == VALIDATION_LAYERS && WIDTH == 800 && HEIGHT == 600
      ensures window.None? && instance.None? && surface.None? && physicalDevice.None?
      ensures device.None? && graphicsQueue.None? && !glfwInitialized
      ensures live == [] && created == [] && destroyed == []
    {
      this.enableValidationLayers := enableValidationLayers;
      validationLayers := VALIDATION_LAYERS;
      WIDTH, HEIGHT := 800, 600;
      window, instance, surface, physicalDevice := None, None, None, None;
      device, graphicsQueue, glfwInitialized := None, None, false;
      live, created, destroyed := [], [], [];
    }

    /** A creation call succeeded: its handle becomes the newest live resource. */
    ghost method Push(r: Resource)
      modifies this`live, this`created
      ensures live == old(live) + [r] && created == old(created) + [r]
    {
      live := live + [r];
      created := created + [r];
    }

    /** A destroy call: only the newest live resource may go. */
    ghost method Pop(r: Resource)
      requires |live| > 0 && live[|live| - 1] == r
      modifies this`live, this`destroyed
      ensures live == old(live)[..|old(live)| - 1] && destroyed == old(destroyed) + [r]
    {
      live := live[..|live| - 1];
      destroyed := destroyed + [r];
    }

    /** `run`: create the window, initialise Vulkan, then clean up. An exception thrown during
        initialisation leaves `run` at once, so `cleanup` does not run and nothing is destroyed. */
    method Run(p: Platform) returns (r: Outcome<InitError>)
      requires p.WellFormed()
      requires live == [] && created == [] && destroyed == []
      requires window.None? && physicalDevice.None? && !glfwInitialized
      modifies this
      ensures r == InitOutcome(p, enableValidationLayers, validationLayers)
      ensures created == [Window] + VulkanResourcesCreated(r)
      ensures r.Pass? ==> created == CREATION_ORDER && live == [] && destroyed == Reverse(created)
      ensures r.Pass? ==> !glfwInitialized
      ensures r.Fail? ==> live == created && destroyed == [] && LiveHandlesSet()
    {
      InitWindow();
      assert live == created == [Window];
      r := InitVulkan(p);
      if r.Fail? {
        return;
      }
      assert live == created == CREATION_ORDER;
      Cleanup();
    }

    /** `initWindow`: initialise GLFW, ask for no client API and a fixed-size window, and create
        a WIDTH x HEIGHT window titled "Vulkan". The source checks neither call for failure. */
    method InitWindow()
      modifies this`glfwInitialized, this`window, this`live, this`created
      ensures glfwInitialized
      ensures window == Some(WindowConfig(WIDTH, HEIGHT, "Vulkan", true, false))
      ensures live == old(live) + [Window] && created == old(created) + [Window]
      ensures old(LiveHandlesSet()) ==> LiveHandlesSet()
    {
      glfwInitialized := true;
      window := Some(WindowConfig(WIDTH, HEIGHT, "Vulkan", true, false));
      Push(Window);
    }

    /** `initVulkan`: instance, surface, physical device, logical device, stopping at the first
        step that throws. */
    method InitVulkan(p: Platform) returns (r: Outcome<InitError>)
      requires p.WellFormed()
      requires window.Some? && physicalDevice.None?
      modifies this`instance, this`surface, this`physicalDevice, this`device, this`graphicsQueue
      modifies this`live, this`created
      ensures r == InitOutcome(p, enableValidationLayers, validationLayers)
      ensures live == old(live) + VulkanResourcesCreated(r)
      ensures created == old(created) + VulkanResourcesCreated(r)
      ensures old(LiveHandlesSet()) ==> LiveHandlesSet()
      ensures InstanceCreated(r) ==>
                instance.Some? &&
                IsInstanceCreateInfoFor(instance.value, p.requiredInstanceExtensions,
                                        enableValidationLayers, validationLayers)
      ensures !InstanceCreated(r) ==> instance == old(instance)
      ensures SurfaceCreated(r) ==> surface == window
      ensures !SurfaceCreated(r) ==> surface == old(surface)
      ensures r.Pass? || r == Fail(LogicalDeviceCreationFailed) ==>
                physicalDevice == FirstSuitableDevice(p.physicalDevices)
      ensures r.Fail? && r != Fail(LogicalDeviceCreationFailed) ==> physicalDevice == old(physicalDevice)
      ensures r.Pass? ==> device == Some(LogicalDeviceFor(p.physicalDevices[physicalDevice.value]))
      ensures r.Pass? ==> graphicsQueue == Some(QueueHandle(FirstGraphicsFamily(p.physicalDevices[physicalDevice.value]).value, 0))
      ensures r.Fail? ==> device == old(device) && graphicsQueue == old(graphicsQueue)
    {
      ghost var live0, created0 := live, created;
      AppendedInOrder(live0);
      AppendedInOrder(created0);
      r := CreateInstance(p);
      if r.Fail? {
        return;
      }
      assert InstanceCreated(r) && instance.Some?;
      assert IsInstanceCreateInfoFor(instance.value, p.requiredInstanceExtensions,
                                     enableValidationLayers, validationLayers);
      r := CreateSurface(p);
      if r.Fail? {
        return;
      }
      assert SurfaceCreated(r) && surface == window;
      r := PickPhysicalDevice(p);
      if r.Fail? {
        return;
      }
      assert physicalDevice == FirstSuitableDevice(p.physicalDevices);
      r := CreateLogicalDevice(p);
    }

    /** `createInstance`: refuse when validation is on and `checkValidationLayerSupport` (as
        written) fails, then build the create-info and call vkCreateInstance. */
    method CreateInstance(p: Platform) returns (r: Outcome<InitError>)
      requires p.WellFormed()
      modifies this`instance, this`live, this`created
      ensures r == if enableValidationLayers && !AllFoundAsWritten(validationLayers, p.availableLayers)
                   then Fail(ValidationLayersUnavailable)
                   else if p.createInstanceResult != Success then Fail(InstanceCreationFailed)
                   else Pass
      ensures r.Pass? ==>
                && instance.Some?
                && IsInstanceCreateInfoFor(instance.value, p.requiredInstanceExtensions,
                                           enableValidationLayers, validationLayers)
                && live == old(live) + [Instance] && created == old(created) + [Instance]
      ensures r.Fail? ==> instance == old(instance) && live == old(live) && created == old(created)
      ensures old(LiveHandlesSet()) ==> LiveHandlesSet()
    {
      if enableValidationLayers {
        var supported := CheckValidationLayerSupport(validationLayers, p.availableLayers);
        if !supported {
          return Fail(ValidationLayersUnavailable);
        }
      }
      var createInfo := BuildInstanceCreateInfo(p.requiredInstanceExtensions, enableValidationLayers, validationLayers);
      if p.createInstanceResult != Success {
        return Fail(InstanceCreationFailed);
      }
      instance := Some(createInfo);
      Push(Instance);
      return Pass;
    }

    /** `createSurface`: glfwCreateWindowSurface for the window, against the instance. */
    method CreateSurface(p: Platform) returns (r: Outcome<InitError>)
      requires window.Some?
      modifies this`surface, this`live, this`created
      ensures r == if p.createSurfaceResult == Success then Pass else Fail(SurfaceCreationFailed)
      ensures r.Pass? ==> surface == window && live == old(live) + [Surface] && created == old(created) + [Surface]
      ensures r.Fail? ==> surface == old(surface) && live == old(live) && created == old(created)
      ensures old(LiveHandlesSet()) ==> LiveHandlesSet()
    {
      if p.createSurfaceResult != Success {
        return Fail(SurfaceCreationFailed);
      }
      surface := window;
      Push(Surface);
      return Pass;
    }

    /** `pickPhysicalDevice`: throw when no device is enumerated; otherwise keep the first
        suitable device, and throw when `physicalDevice` is still null afterwards. */
    method PickPhysicalDevice(p: Platform) returns (r: Outcome<InitError>)
      modifies this`physicalDevice
      ensures |p.physicalDevices| == 0 ==> r == Fail(NoGpuFound) && physicalDevice == old(physicalDevice)
      ensures |p.physicalDevices| > 0 ==>
                physicalDevice == (if FirstSuitableDevice(p.physicalDevices).Some?
                                   then FirstSuitableDevice(p.physicalDevices) else old(physicalDevice))
      ensures |p.physicalDevices| > 0 ==> r == if physicalDevice.None? then Fail(NoSuitableGpu) else Pass
      ensures LiveHandlesSet() == old(LiveHandlesSet())
    {
      var deviceCount := |p.physicalDevices|;
      if deviceCount == 0 {
        return Fail(NoGpuFound);
      }
      var devices := p.physicalDevices;
      var k := 0;
      while k < |devices|
        invariant 0 <= k <= |devices|
        invariant physicalDevice == old(physicalDevice)
        invariant forall j :: 0 <= j < k ==> !IsDeviceSuitable(devices[j])
      {
        if IsDeviceSuitable(devices[k]) {
          physicalDevice := Some(k);
          break;
        }
        k := k + 1;
      }
      if physicalDevice.None? {
        return Fail(NoSuitableGpu);
      }
      return Pass;
    }

    /** `createLogicalDevice`: one queue from the chosen device's graphics family, then queue 0
        of that family. */
    method CreateLogicalDevice(p: Platform) returns (r: Outcome<InitError>)
      requires physicalDevice.Some? && physicalDevice.value < |p.physicalDevices|
      requires IsDeviceSuitable(p.physicalDevices[physicalDevice.value])
      modifies this`device, this`graphicsQueue, this`live, this`created
      ensures r == if p.createDeviceResult == Success then Pass else Fail(LogicalDeviceCreationFailed)
      ensures r.Pass? ==>
                && device == Some(LogicalDeviceFor(p.physicalDevices[physicalDevice.value]))
                && graphicsQueue == Some(QueueHandle(FirstGraphicsFamily(p.physicalDevices[physicalDevice.value]).value, 0))
                && live == old(live) + [LogicalDevice] && created == old(created) + [LogicalDevice]
      ensures r.Fail? ==> device == old(device) && graphicsQueue == old(graphicsQueue)
      ensures r.Fail? ==> live == old(live) && created == old(created)
      ensures old(LiveHandlesSet()) ==> LiveHandlesSet()
    {
      var indices := FindQueueFamily(p.physicalDevices[physicalDevice.value]);
      var createInfo := DeviceCreateInfoFor(indices, enableValidationLayers, validationLayers);
      if p.createDeviceResult != Success {
        return Fail(LogicalDeviceCreationFailed);
      }
      device := Some(createInfo);
      Push(LogicalDevice);
      graphicsQueue := Some(QueueHandle(indices.graphicsFamily.value, 0));
      return Pass;
    }

    /** `cleanup`: destroy the device, the surface, the instance and the window, then terminate
        GLFW. Each destroy must take the newest live handle. */
    method Cleanup()
      requires live == CREATION_ORDER
      modifies this`live, this`destroyed, this`glfwInitialized
      ensures live == [] && destroyed == old(destroyed) + Reverse(CREATION_ORDER)
      ensures !glfwInitialized
    {
      Pop(LogicalDevice);
      Pop(Surface);
      Pop(Instance);
      Pop(Window);
      glfwInitialized := false;
      assert Reverse(CREATION_ORDER) == [LogicalDevice, Surface, Instance, Window];
    }
  }
}
