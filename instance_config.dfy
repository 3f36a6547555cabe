/** Instance configuration: validation-layer lookup and the create-info that `createInstance`
    fills in (src/main.cpp). Layer and extension names are modelled without their NUL terminator. */
module InstanceConfig {
  import opened Vulkan

  /** `strcmp` on two NUL-free names: zero when they are equal, otherwise negative or positive
      as `a` sorts before or after `b`. */
  function StrCmp(a: string, b: string): (r: int)
    ensures r == 0 <==> a == b
    ensures -1 <= r <= 1
  {
    if |a| == 0 && |b| == 0 then 0
    else if |a| == 0 then -1
    else if |b| == 0 then 1
    else if a[0] < b[0] then -1
    else if a[0] > b[0] then 1
    else
      assert a == [a[0]] + a[1..] && b == [b[0]] + b[1..];
      StrCmp(a[1..], b[1..])
  }

  /** The inner test of line 238 as written: some available layer makes `strcmp` non-zero. */
  ghost predicate FoundAsWritten(layerName: string, availableLayers: seq<string>)
  {
    exists a :: 0 <= a < |availableLayers| && StrCmp(layerName, availableLayers[a]) != 0
  }

  /** What `checkValidationLayerSupport` returns, read literally. */
  ghost predicate AllFoundAsWritten(validationLayers: seq<string>, availableLayers: seq<string>)
  {
    forall l :: 0 <= l < |validationLayers| ==> FoundAsWritten(validationLayers[l], availableLayers)
  }

  /** What the check is evidently meant to return: every requested layer is available. */
  ghost predicate AllAvailable(validationLayers: seq<string>, availableLayers: seq<string>)
  {
    forall l :: 0 <= l < |validationLayers| ==> validationLayers[l] in availableLayers
  }

  /** `checkValidationLayerSupport` as written: for each requested layer, scan the available
      layers and count it as found at the first name for which `strcmp` is non-zero; return false
      at the first requested layer that is not found. */
  method CheckValidationLayerSupport(validationLayers: seq<string>, availableLayers: seq<string>)
    returns (supported: bool)
    ensures supported <==> AllFoundAsWritten(validationLayers, availableLayers)
  {
    var l := 0;
    while l < |validationLayers|
      invariant 0 <= l <= |validationLayers|
      invariant forall k :: 0 <= k < l ==> FoundAsWritten(validationLayers[k], availableLayers)
    {
      var layerFound := false;
      var a := 0;
      while a < |availableLayers|
        invariant 0 <= a <= |availableLayers|
        invariant !layerFound
        invariant forall b :: 0 <= b < a ==> StrCmp(validationLayers[l], availableLayers[b]) == 0
      {
        if StrCmp(validationLayers[l], availableLayers[a]) != 0 {
          layerFound := true;
          break;
        }
        a := a + 1;
      }
      if !layerFound {
        assert !FoundAsWritten(validationLayers[l], availableLayers);
        return false;
      }
      l := l + 1;
    }
    return true;
  }

  /** Read literally, a requested layer counts as found exactly when some available layer has a
      different name. */
  lemma FoundAsWrittenIffSomeNameDiffers(layerName: string, availableLayers: seq<string>)
    ensures FoundAsWritten(layerName, availableLayers) <==>
            exists a :: 0 <= a < |availableLayers| && availableLayers[a] != layerName
  {
  }

  /** The same loops with the test the line evidently intends, `strcmp(...) == 0`. */
  method CheckValidationLayerSupportIntended(validationLayers: seq<string>, availableLayers: seq<string>)
    returns (supported: bool)
    ensures supported <==> AllAvailable(validationLayers, availableLayers)
  {
    var l := 0;
    while l < |validationLayers|
      invariant 0 <= l <= |validationLayers|
      invariant forall k :: 0 <= k < l ==> validationLayers[k] in availableLayers
    {
      var layerFound := false;
      var a := 0;
      while a < |availableLayers|
        invariant 0 <= a <= |availableLayers|
        invariant !layerFound
        invariant forall b :: 0 <= b < a ==> availableLayers[b] != validationLayers[l]
      {
        if StrCmp(validationLayers[l], availableLayers[a]) == 0 {
          layerFound := true;
          break;
        }
        a := a + 1;
      }
      if !layerFound {
        assert validationLayers[l] !in availableLayers;
        return false;
      }
      l := l + 1;
    }
    return true;
  }

  /** As written, the check rejects a requested layer when it is the only layer installed
      (for instance "VK_LAYER_KHRONOS_validation" against a system offering just that layer). */
  lemma AsWrittenRejectsInstalledLayer(layerName: string)
    ensures !AllFoundAsWritten([layerName], [layerName])
    ensures AllAvailable([layerName], [layerName])
  {
    assert [layerName][0] == layerName;
  }

  /** As written, the check accepts a requested layer when only some other layer is installed. */
  lemma AsWrittenAcceptsMissingLayer(layerName: string, otherLayer: string)
    requires layerName != otherLayer
    ensures AllFoundAsWritten([layerName], [otherLayer])
    ensures !AllAvailable([layerName], [otherLayer])
  {
    assert StrCmp([layerName][0], [otherLayer][0]) != 0;
  }

  /** `createInstance`'s extension loop: the GLFW-required extensions, in their order, followed
      by the portability-enumeration extension. */
  method RequiredExtensions(glfwExtensions: seq<string>) returns (requiredExtensions: seq<string>)
    ensures requiredExtensions == glfwExtensions + [PORTABILITY_ENUMERATION_EXTENSION_NAME]
    ensures |requiredExtensions| == |glfwExtensions| + 1
  {
    requiredExtensions := [];
    var i: nat := 0;
    while i < |glfwExtensions|
      invariant i <= |glfwExtensions|
      invariant requiredExtensions == glfwExtensions[..i]
    {
      requiredExtensions := requiredExtensions + [glfwExtensions[i]];
      i := i + 1;
    }
    requiredExtensions := requiredExtensions + [PORTABILITY_ENUMERATION_EXTENSION_NAME];
  }

  datatype ApplicationInfo = ApplicationInfo(
    applicationName: string,
    applicationVersion: nat,
    engineName: string,
    engineVersion: nat,
    apiVersion: nat)

  const APPLICATION_INFO: ApplicationInfo :=
    ApplicationInfo("Hello Vulkaaaan", VERSION_1_0_0, "No Engine??", VERSION_1_0_0, API_VERSION_1_0)

  datatype InstanceCreateInfo = InstanceCreateInfo(
    applicationInfo: ApplicationInfo,
    flags: InstanceCreateFlags,
    enabledExtensionCount: uint32,
    enabledExtensionNames: seq<string>,
    enabledLayerCount: uint32,
    enabledLayerNames: seq<string>)

  /** The layers both create-infos enable: the validation layers when validation is on, and none
      (a null name array) otherwise. */
  function EnabledLayerNames(enableValidationLayers: bool, validationLayers: seq<string>): (layerNames: seq<string>)
  {
    if enableValidationLayers then validationLayers else []
  }

  /** What `createInstance` puts in the create-info it hands to vkCreateInstance: the source's
      application info; the GLFW extensions followed by the portability-enumeration extension,
      with their number cast to `uint32_t`; exactly the portability flag, set on a zeroed create-info; and the validation layers and
      their count when validation is on, no layers and a count of 0 otherwise. */
  ghost predicate IsInstanceCreateInfoFor(createInfo: InstanceCreateInfo, glfwExtensions: seq<string>,
                                          enableValidationLayers: bool, validationLayers: seq<string>)
  {
    && createInfo.applicationInfo == APPLICATION_INFO
    && createInfo.enabledExtensionNames == glfwExtensions + [PORTABILITY_ENUMERATION_EXTENSION_NAME]
    && createInfo.enabledExtensionCount as int == (|glfwExtensions| + 1) % UINT32_MODULUS
    && createInfo.flags == INSTANCE_CREATE_ENUMERATE_PORTABILITY_BIT
    && (enableValidationLayers ==>
          createInfo.enabledLayerNames == validationLayers &&
          createInfo.enabledLayerCount as int == |validationLayers| % UINT32_MODULUS)
    && (!enableValidationLayers ==>
          createInfo.enabledLayerNames == [] && createInfo.enabledLayerCount == 0)
  }

  /** Builds that create-info. The GLFW list is at most 2^32 - 1 long because GLFW reports its
      length as a `uint32_t`. */
  method BuildInstanceCreateInfo(glfwExtensions: seq<string>, enableValidationLayers: bool,
                                 validationLayers: seq<string>)
    returns (createInfo: InstanceCreateInfo)
    requires |glfwExtensions| < UINT32_MODULUS
    ensures IsInstanceCreateInfoFor(createInfo, glfwExtensions, enableValidationLayers, validationLayers)
  {
    createInfo := InstanceCreateInfo(APPLICATION_INFO, 0, 0, [], 0, []);
    createInfo := createInfo.(enabledExtensionCount := |glfwExtensions| as uint32,
                              enabledExtensionNames := glfwExtensions);
    var requiredExtensions := RequiredExtensions(glfwExtensions);
    createInfo := createInfo.(flags := createInfo.flags | INSTANCE_CREATE_ENUMERATE_PORTABILITY_BIT);
    createInfo := createInfo.(enabledExtensionCount := SizeToUint32(|requiredExtensions|),
                              enabledExtensionNames := requiredExtensions);
    if enableValidationLayers {
      createInfo := createInfo.(enabledLayerCount := SizeToUint32(|validationLayers|),
                                enabledLayerNames := EnabledLayerNames(enableValidationLayers, validationLayers));
    } else {
      createInfo := createInfo.(enabledLayerCount := 0);
    }
  }
}
