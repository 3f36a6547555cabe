# Vulkan setup and window wrapper: a Dafny model

This project models the setup core of a small Vulkan renderer: the application class that
creates a GLFW window, a Vulkan instance, a window surface and a logical device, and tears
them down again (`src/main.cpp`), and the `VulkanEngine::Window` wrapper that tracks the window
size and a "framebuffer was resized" flag (`src/Window.hpp`, `src/Window.cpp`).

The GLFW and Vulkan calls are foreign. Their answers are given as plain data:

- `Application.Platform` holds GLFW's required instance extensions and the installed layer names.
- It also holds the status of vkCreateInstance, glfwCreateWindowSurface and vkCreateDevice.
- Each enumerated physical device appears as the sequence of its queue families' flag masks (`Vulkan.Device`).
- The `Window` constructors take whether glfwInit succeeds.
- `FetchFrameBufferSize` and the resize callback take the size GLFW reports.

Modules, one per concern:

- `Wrappers`: `Option` (for `std::optional` and null handles) and `Outcome` (a step that may throw).
- `Vulkan`: `int32`/`uint32`, the flag bits, extension names and version constants, and the integer casts.
- `QueueSelection`: `QueueFamilyIndices`, `findQueueFamily`, `isDeviceSuitable`, and the first-match rule shared by family and device selection (`FirstIndex`).
- `InstanceConfig`: `strcmp`, `checkValidationLayerSupport`, and the extension and layer lists of the instance create-info.
- `DeviceConfig`: the device create-info.
- `Application`: class `HelloTriangleApplication`. It keeps a stack of live resources: each creation pushes and each destroy must pop the newest handle.
- `VulkanEngine`: class `Window`, plus a value-level view of its state (`WindowState`, `WindowEvent`, `Replay`). The lemmas about event traces are stated on that view. Each `Window` keeps a ghost history of its events, and its invariant `Valid` says the fields are the replay of that history.

Where the code and its evident intent differ, the model follows the code. This includes the
validation-layer check of line 238, which instance creation uses as written. The corrected
check is kept beside it (see Findings).

The application class is called `HelloTriangeApplication` in the source (src/main.cpp:11). The
model spells it `HelloTriangleApplication`.

## Model

| member | source | states |
|---|---|---|
| `QueueSelection.FirstIndex` | src/main.cpp:147-160 | The result is the smallest index whose element satisfies the predicate. It is None exactly when no element does, and any index returned is below the length. |
| `QueueSelection.QueueFamilyIndices.IsComplete` | src/main.cpp:124-127 | `isComplete` is true iff the optional graphics family holds a value. What that means for a search result (some family has the graphics bit) is stated by `FindQueueFamily`. |
| `QueueSelection.FindQueueFamily` | src/main.cpp:138-162 | The loop returns the first family whose flags carry the graphics bit and stops there. The result is complete iff some family has the bit, and the index is below the family count. |
| `QueueSelection.IsDeviceSuitable` | src/main.cpp:124-136 | A device is suitable (`isComplete` of `findQueueFamily`'s result) iff some queue family has the graphics bit. |
| `QueueSelection.ChosenDeviceHasGraphicsFamily` | src/main.cpp:166-170 | For the device the first-match rule picks, `graphicsFamily.value()` is defined. That family is a valid index into the device's families. |
| `InstanceConfig.StrCmp` | src/main.cpp:238 | `strcmp` is zero iff the two names are equal, and otherwise it is -1 or 1. |
| `InstanceConfig.CheckValidationLayerSupport` | src/main.cpp:226-248 | As written: true iff every requested layer has some available layer for which `strcmp` is non-zero. It returns false at the first layer without one, and is vacuously true for no requested layers. |
| `InstanceConfig.FoundAsWrittenIffSomeNameDiffers` | src/main.cpp:237-242 | Read literally, a requested layer counts as found exactly when some available layer's name is different from it. |
| `InstanceConfig.AsWrittenRejectsInstalledLayer` | src/main.cpp:238 | When the requested layer is the only installed layer, the literal check fails, although the layer is available. |
| `InstanceConfig.AsWrittenAcceptsMissingLayer` | src/main.cpp:238 | When only a differently named layer is installed, the literal check succeeds, although the layer is missing. |
| `InstanceConfig.CheckValidationLayerSupportIntended` | src/main.cpp:226-248 | The same loops with `strcmp(...) == 0`: true iff every requested layer is among the available ones. |
| `InstanceConfig.RequiredExtensions` | src/main.cpp:59-65 | The result is the GLFW extensions in their original order, followed by the portability-enumeration name. Its length is the GLFW count plus one. |
| `InstanceConfig.BuildInstanceCreateInfo` | src/main.cpp:37-80 | The result satisfies `IsInstanceCreateInfoFor`. The extension names are GLFW's list plus the portability name, and the count is that length cast to `uint32_t`. The flags are exactly the portability bit, since the create-info starts zeroed. The application info holds the source's constants. With validation on, the layers are the validation layers and their count; with it off, none and 0. |
| `Vulkan.SizeToUint32` | src/main.cpp:69 | Casting a container size to `uint32_t` keeps any size below 2^32. |
| `DeviceConfig.DeviceCreateInfoFor` | src/main.cpp:166-191 | It needs the graphics family to be present. It requests exactly one queue, with the single priority 1.0, from that family, and enables no device extensions. Layers follow the same rule as the instance. |
| `Application.InitSucceedsIff` | src/main.cpp:22-29 | Initialisation ends without an exception iff all of these hold: validation is off or line 238's check passes as written, the three creation calls succeed, and some device has a graphics-capable queue family. |
| `Application.InstalledValidationLayerIsRejected` | src/main.cpp:33-35 | With validation on and exactly `VK_LAYER_KHRONOS_validation` installed, initialisation throws "validation layer requested, but not available!", whatever the other calls answer. |
| `Application.MessagesIdentifyErrors` | src/main.cpp:34-283 | No two of the six initialisation errors share a message, so the text `main` prints (line 283) identifies the failing step. |
| `Application.NoSuitableGpuMeansNoGraphicsFamily` | src/main.cpp:108-118 | "failed to find suitable GPU!" arises only when devices were enumerated and none has a graphics-capable family. |
| `Application.HelloTriangleApplication.constructor` | src/main.cpp:250-270 | The window is 800 x 600 and the validation layer list is `VK_LAYER_KHRONOS_validation`. `physicalDevice` starts null and no resource is live. |
| `Application.HelloTriangleApplication.Run` | src/main.cpp:14-19 | The outcome is the first failing step's exception, or success, with the layer check as written. Resources are created in the order window, instance, surface, device. On success all are destroyed in exactly the reverse order. On an exception nothing is destroyed, and every live resource has its handle field set. |
| `Application.HelloTriangleApplication.InitWindow` | src/main.cpp:201-210 | GLFW is initialised. A non-resizable, no-client-API window of WIDTH x HEIGHT titled "Vulkan" becomes the first live resource. |
| `Application.HelloTriangleApplication.InitVulkan` | src/main.cpp:22-29 | The four steps run in order and stop at the first exception. The live handles grow by exactly what succeeded, each with its handle field set. Once `createInstance` has passed, the instance's create-info satisfies `IsInstanceCreateInfoFor`; once `createSurface` has passed, the surface belongs to the window; fields of steps not reached are unchanged. On success or a failed vkCreateDevice, the picked device is the first suitable one; after an earlier exception, including "failed to find suitable GPU!", `physicalDevice` stays null. On success the device is `LogicalDeviceFor` the picked device and the graphics queue is queue 0 of that family; on any exception neither is set. |
| `Application.HelloTriangleApplication.CreateInstance` | src/main.cpp:31-85 | It fails with "validation layer requested, but not available!" when validation is on and `checkValidationLayerSupport` fails as written. It fails with "failed to create instance!" when vkCreateInstance fails. Otherwise the instance is live, and its create-info satisfies `IsInstanceCreateInfoFor`: application info, extension names and count, portability flag, and layer names and count. |
| `Application.HelloTriangleApplication.CreateSurface` | src/main.cpp:87-94 | It fails with "failed to create window surface!" when GLFW fails. Otherwise a surface for the window is pushed as live. |
| `Application.HelloTriangleApplication.PickPhysicalDevice` | src/main.cpp:96-119 | With zero devices it fails with "No GPU found" and `physicalDevice` is unchanged. Otherwise `physicalDevice` becomes the first suitable device. If there is none, it stays null and the step fails with "failed to find suitable GPU!". |
| `Application.HelloTriangleApplication.CreateLogicalDevice` | src/main.cpp:164-198 | It requires the picked device to have a graphics family. It fails with "failed to create logical device!" when vkCreateDevice fails. Otherwise the device is created from `LogicalDeviceFor` of the picked device, that is `DeviceCreateInfoFor` its first graphics family, and the graphics queue is queue 0 of that family. |
| `Application.HelloTriangleApplication.Cleanup` | src/main.cpp:217-224 | It destroys device, surface, instance and window, each the newest live handle at that moment. That order is the reverse of creation. Then GLFW is terminated. |
| `VulkanEngine.Window.constructor` | src/Window.cpp:8-11 | The given width, height and name are stored and the flag is clear. The event history starts empty, from that state. `initWindow` then creates the GLFW window from those stored values. |
| `VulkanEngine.Window.WithDefaultName` | src/Window.cpp:8-11 | With the third argument omitted, the name is the default "Vulkan". That default is written only on the definition in src/Window.cpp:8, not on the declaration at src/Window.hpp:24. So only code in Window.cpp after line 8 can leave the argument out. |
| `VulkanEngine.Window.Default` | src/Window.cpp:13-16 | A default-constructed window is 800 x 600 with an empty name and the flag clear (the member defaults of src/Window.hpp:13-17). |
| `VulkanEngine.Window.InitWindow` | src/Window.cpp:38-52 | The error callback is set first. When glfwInit fails, no window is created. Otherwise the no-client-API hint is given and a window of the stored size and name is created, with this object as its user pointer and the framebuffer-size callback set on it. |
| `VulkanEngine.Window.FrameBufferResizeCallback` | src/Window.cpp:57-60 | The flag is set whatever size is reported. Width, height and name are unchanged. The callback is appended to the event history, and the fields stay the replay of that history. |
| `VulkanEngine.Window.WasWindowResized` | src/Window.cpp:62-64 | It returns the current flag. The result is true iff the resize callback has fired since the last reset, or, with no reset yet, the flag was set at construction. This holds through `ResizedFlagMeansCallbackSinceReset` applied to the window's own event history. As a read-only function it leaves the state as it was. |
| `VulkanEngine.Window.ResetWindowResizedFlag` | src/Window.cpp:66-68 | The flag is cleared and nothing else changes. The reset is appended to the event history. |
| `VulkanEngine.Window.FetchFrameBufferSize` | src/Window.cpp:24-26 | Width and height are overwritten with the reported framebuffer size. The flag and the name are unchanged. The fetch is appended to the event history. |
| `VulkanEngine.Window.GetExtent` | src/Window.cpp:70-78 | Each dimension is `static_cast<uint32_t>` of the `int`. Non-negative values are kept and negative ones wrap by 2^32, so converting back gives the original size. |
| `Vulkan.ToUint32` | src/Window.cpp:73-74 | `static_cast<uint32_t>` of an `int` agrees with the value when non-negative and adds 2^32 when negative. Converting back gives the original value. |
| `VulkanEngine.ResizedFlagMeansCallbackSinceReset` | src/Window.cpp:57-68 | After any sequence of events, the flag is set iff the resize callback has fired since the last reset. If there was no reset, it is also set when it was set to begin with. |
| `VulkanEngine.PublicOperationsNeverSetFlag` | src/Window.hpp:21-33 | A sequence of public operations can only clear the flag or leave it. Only the private callback sets it. |
| `VulkanEngine.SizeIsLastFetched` | src/Window.hpp:13-33 | After construction, width and height are those of the last `fetchFrameBufferSize`, or the constructed ones if it was never called. The name never changes. |

## Findings

| source | as written | input that shows it | evidently intended | confidence | as-written member | corrected member |
|---|---|---|---|---|---|---|
| src/main.cpp:238 | `if(strcmp(layerName, layerProperties.layerName))`: a layer counts as found when some installed layer's name differs from it | requested `["VK_LAYER_KHRONOS_validation"]`, installed `["VK_LAYER_KHRONOS_validation"]` gives false; installed `["VK_LAYER_LUNARG_monitor"]` gives true | `strcmp(...) == 0`: found when some installed layer has the same name | high (not executed) | `InstanceConfig.CheckValidationLayerSupport`, with `InstanceConfig.AsWrittenRejectsInstalledLayer` and `InstanceConfig.AsWrittenAcceptsMissingLayer` | `InstanceConfig.CheckValidationLayerSupportIntended` |

## Left out

- The GLFW and Vulkan calls themselves: window and surface creation, enumeration, instance and device creation, and the destroy calls. Their results are inputs (`Platform`, constructor and method parameters). A created handle is represented by the create-info it was made from, or by the window it belongs to.
- `mainLoop` (src/main.cpp:211-215) only polls events until GLFW reports that the window should close. `Run` goes from `InitVulkan` straight to `Cleanup`.
- `main`'s exception printing and exit code (src/main.cpp:277-288), and `Window::errorCallback` (src/Window.cpp:54-56), are console output.
- `Window::windowShouldClose` and `Window::createSurface` (src/Window.cpp:28-36) only return what GLFW answers. The destructor (src/Window.cpp:18-22) only makes GLFW calls.
- `glfwSetWindowUserPointer` (src/Window.cpp:50) is recorded as the window's `userPointer`. The `reinterpret_cast` back to `Window*` in the callback (src/Window.cpp:58) is modelled as a direct method call on that object. GLFW's later delivery of resize events is not modelled.
- Access control: Dafny classes here have no private members. Instead, `PublicOperationsNeverSetFlag` states over event traces that only the callback sets the flag.
- Build configurations: `enableValidationLayers` is a constructor parameter. The `NDEBUG` branch (src/main.cpp:267) declares a misspelt `enableValidationsLayers`, so that build would not compile.
- `getExtent` (src/Window.cpp:72-75) names `.height` before `.width` in its designated initializer. C++ requires declaration order there, so compilers reject or warn about it. The model assigns each field by name.
- InitWindow (`Application.HelloTriangleApplication.InitWindow` and `VulkanEngine.Window.InitWindow`): neither models a NULL result from glfwCreateWindow. Neither source checks it (src/main.cpp:208, src/Window.cpp:49-51). Window.cpp would then set the user pointer and callback on a NULL window, which GLFW does not define. The model always creates the window once glfwInit has succeeded. src/main.cpp also ignores glfwInit's result, so that model always initialises GLFW.
- `pEnabledFeatures` (src/main.cpp:175, 182) points at a default, all-false `VkPhysicalDeviceFeatures`. `DeviceConfig.DeviceCreateInfo` has no field for it, so the model does not state that no device feature is enabled.
- `live`, `created` and `destroyed` are ghost bookkeeping of the model with no counterpart in the source. They record the order of creation and destruction that the source's calls imply.
- Destroyed handles: like the source, `cleanup` does not reset the handle fields, so they keep stale values once `live` is empty.
- Layer and extension names are modelled without their NUL terminator, `strcmp`'s sign is reduced to -1/0/1, and the queue priority `1.0f` is the real number 1.0.
- The swapchain, per-frame synchronisation, command recording, presentation and the resize-driven rebuild are not in these source files, so they are not modelled.
