/** The instance builder, version packing, the instance-level extension
    and layer checks, and instance creation. */
module Instances {

  import opened Vk

  /** VK_MAKE_VERSION(major, minor, patch) over the arguments converted to
      uint32_t: major in bits 22 and up, minor from bit 12, patch in the
      low bits. The fields are OR-ed unmasked, so an oversized field spills
      into the next one. */
  function MakeVersion(major: bv32, minor: bv32, patch: bv32): bv32
  {
    (major << 22) | (minor << 12) | patch
  }

  /** VK_VERSION_MAJOR, VK_VERSION_MINOR and VK_VERSION_PATCH. */
  function VersionMajor(v: bv32): bv32 { v >> 22 }
  function VersionMinor(v: bv32): bv32 { (v >> 12) & 0x3FF }
  function VersionPatch(v: bv32): bv32 { v & 0xFFF }

  /** Packing then unpacking gives back each field that fits its width. */
  lemma MakeVersionRoundTrip(major: bv32, minor: bv32, patch: bv32)
    requires major < 1024 && minor < 1024 && patch < 4096
    ensures VersionMajor(MakeVersion(major, minor, patch)) == major
    ensures VersionMinor(MakeVersion(major, minor, patch)) == minor
    ensures VersionPatch(MakeVersion(major, minor, patch)) == patch
  {
  }

  /** The value engineVersion(major, minor, patch) stores: the patch field
      is packed as patch * 3. */
  function EngineVersion(major: bv32, minor: bv32, patch: bv32): bv32
  {
    MakeVersion(major, minor, patch * 3)
  }

  /** engineVersion decodes to the given major and minor and three times
      the given patch, as long as the tripled patch fits its field. */
  lemma EngineVersionTriplesPatch(major: bv32, minor: bv32, patch: bv32)
    requires major < 1024 && minor < 1024 && patch < 1366
    ensures VersionMajor(EngineVersion(major, minor, patch)) == major
    ensures VersionMinor(EngineVersion(major, minor, patch)) == minor
    ensures VersionPatch(EngineVersion(major, minor, patch)) == patch * 3
  {
    assert patch * 3 < 4096;
    MakeVersionRoundTrip(major, minor, patch * 3);
  }

  /** From patch 1366 on, the tripled patch spills into the minor field:
      engineVersion(0, 0, 1366) reads back as 0.1.2. */
  lemma EngineVersionSpills()
    ensures VersionMajor(EngineVersion(0, 0, 1366)) == 0
    ensures VersionMinor(EngineVersion(0, 0, 1366)) == 1
    ensures VersionPatch(EngineVersion(0, 0, 1366)) == 2
  {
  }

  /** VK_API_VERSION_1_0 */
  const VK_API_VERSION_1_0: bv32 := 0x0040_0000
  const VK_EXT_DEBUG_UTILS_EXTENSION_NAME: string := "VK_EXT_debug_utils"
  const KHRONOS_VALIDATION_LAYER: string := "VK_LAYER_KHRONOS_validation"

  /** InstanceBuilder. `validation` stands for SATURN_ENABLE_VALIDATION;
      `hasCallback` for whether a debug callback was set. */
  class InstanceBuilder {
    const validation: bool
    var appName: string
    var appVersion: bv32
    var engineName: string
    var engineVersion: bv32
    var extensions: seq<string>
    var layers: seq<string>
    var hasCallback: bool

    /** InstanceBuilder(): the member defaults, and with validation enabled
        the debug-utils extension and the Khronos validation layer. */
    constructor (validation: bool)
      ensures this.validation == validation
      ensures appName == "saturn" && appVersion == 0
      ensures engineName == "saturn" && engineVersion == MakeVersion(0, 1, 0)
      ensures validation ==> extensions == [VK_EXT_DEBUG_UTILS_EXTENSION_NAME] && layers == [KHRONOS_VALIDATION_LAYER]
      ensures !validation ==> extensions == [] && layers == []
      ensures !hasCallback
    {
      this.validation := validation;
      appName := "saturn";
      appVersion := 0;
      engineName := "saturn";
      engineVersion := MakeVersion(0, 1, 0);
      hasCallback := false;
      if validation {
        extensions := [VK_EXT_DEBUG_UTILS_EXTENSION_NAME];
        layers := [KHRONOS_VALIDATION_LAYER];
      } else {
        extensions := [];
        layers := [];
      }
    }

    method ApplicationName(name: string)
      modifies this
      ensures appName == name
      ensures appVersion == old(appVersion) && engineName == old(engineName) && engineVersion == old(engineVersion)
      ensures extensions == old(extensions) && layers == old(layers) && hasCallback == old(hasCallback)
    {
      appName := name;
    }

    /** applicationVersion(major, minor, patch), arguments already
        converted to uint32_t. */
    method ApplicationVersion(major: bv32, minor: bv32, patch: bv32)
      modifies this
      ensures appVersion == MakeVersion(major, minor, patch)
      ensures appName == old(appName) && engineName == old(engineName) && engineVersion == old(engineVersion)
      ensures extensions == old(extensions) && layers == old(layers) && hasCallback == old(hasCallback)
    {
      appVersion := MakeVersion(major, minor, patch);
    }

    method EngineName(name: string)
      modifies this
      ensures engineName == name
      ensures appName == old(appName) && appVersion == old(appVersion) && engineVersion == old(engineVersion)
      ensures extensions == old(extensions) && layers == old(layers) && hasCallback == old(hasCallback)
    {
      engineName := name;
    }

    /** engineVersion(major, minor, patch): packs patch * 3. */
    method SetEngineVersion(major: bv32, minor: bv32, patch: bv32)
      modifies this
      ensures engineVersion == EngineVersion(major, minor, patch)
      ensures appName == old(appName) && appVersion == old(appVersion) && engineName == old(engineName)
      ensures extensions == old(extensions) && layers == old(layers) && hasCallback == old(hasCallback)
    {
      engineVersion := MakeVersion(major, minor, patch * 3);
    }

    method AddExtension(name: string)
      modifies this
      ensures extensions == old(extensions) + [name] && layers == old(layers)
      ensures appName == old(appName) && appVersion == old(appVersion)
      ensures engineName == old(engineName) && engineVersion == old(engineVersion) && hasCallback == old(hasCallback)
    {
      extensions := extensions + [name];
    }

    method AddLayer(name: string)
      modifies this
      ensures layers == old(layers) + [name] && extensions == old(extensions)
      ensures appName == old(appName) && appVersion == old(appVersion)
      ensures engineName == old(engineName) && engineVersion == old(engineVersion) && hasCallback == old(hasCallback)
    {
      layers := layers + [name];
    }

    method DebugCallback()
      modifies this
      ensures hasCallback
      ensures extensions == old(extensions) && layers == old(layers)
      ensures appName == old(appName) && appVersion == old(appVersion)
      ensures engineName == old(engineName) && engineVersion == old(engineVersion)
    {
      hasCallback := true;
    }
  }

  /** The first required name (in required order) that is not available. */
  function FirstMissing(required: seq<string>, available: seq<string>): (r: Option<nat>)
    ensures r.None? <==> forall i :: 0 <= i < |required| ==> required[i] in available
    ensures r.Some? ==> r.value < |required| && required[r.value] !in available
    ensures r.Some? ==> forall i :: 0 <= i < r.value ==> required[i] in available
  {
    if required == [] then None
    else if required[0] !in available then Some(0)
    else match FirstMissing(required[1..], available)
         case None => None
         case Some(i) => Some(i + 1)
  }

  /** The nested search loop of evaluate_instance_extensions and
      evaluate_instance_layers: returns normally when every required name
      is available, otherwise throws MissingFeatureException for the first
      missing one. */
  method CheckNames(required: seq<string>, available: seq<string>) returns (o: Outcome)
    ensures o.Pass? <==> forall i :: 0 <= i < |required| ==> required[i] in available
    ensures o.Pass? <==> FirstMissing(required, available).None?
    ensures o.Fail? ==> o.error == MissingFeature(required[FirstMissing(required, available).value])
  {
    for i := 0 to |required|
      invariant forall k :: 0 <= k < i ==> required[k] in available
    {
      var found := false;
      for j := 0 to |available|
        invariant found <==> required[i] in available[..j]
      {
        assert available[..j + 1] == available[..j] + [available[j]];
        if available[j] == required[i] {
          found := true;
          break;
        }
      }
      if !found {
        assert available[..|available|] == available;
        FirstMissingIsFirst(required, available, i);
        return Fail(MissingFeature(required[i]));
      }
    }
    return Pass;
  }

  /** The first index whose name is missing, after only available names. */
  lemma {:induction false} FirstMissingIsFirst(required: seq<string>, available: seq<string>, i: nat)
    requires i < |required| && required[i] !in available
    requires forall k :: 0 <= k < i ==> required[k] in available
    ensures FirstMissing(required, available) == Some(i)
  {
    if i > 0 {
      FirstMissingIsFirst(required[1..], available, i - 1);
    }
  }

  /** The parts of VkApplicationInfo and VkInstanceCreateInfo the
      constructor fills in. */
  datatype InstanceCreateInfo = InstanceCreateInfo(
    applicationName: string,
    applicationVersion: bv32,
    engineName: string,
    engineVersion: bv32,
    apiVersion: bv32,
    enabledExtensionCount: nat,
    enabledExtensionNames: seq<string>,
    enabledLayerCount: nat,
    enabledLayerNames: seq<string>)

  class Instance {
    const handle: nat
    const createInfo: InstanceCreateInfo

    constructor (handle: nat, createInfo: InstanceCreateInfo)
      ensures this.handle == handle && this.createInfo == createInfo
    {
      this.handle := handle;
      this.createInfo := createInfo;
    }
  }

  /** Instance(builder): both checks run before vkCreateInstance, so a
      missing extension or layer means no instance is created. */
  method CreateInstance(builder: InstanceBuilder, availableExtensions: seq<string>, availableLayers: seq<string>,
                        createResult: VkResult, handle: nat)
    returns (r: Result<Instance>, createCalled: bool)
    ensures createCalled <==> (forall i :: 0 <= i < |builder.extensions| ==> builder.extensions[i] in availableExtensions)
                              && (forall i :: 0 <= i < |builder.layers| ==> builder.layers[i] in availableLayers)
    ensures r.Ok? <==> createCalled && createResult == VK_SUCCESS
    ensures FirstMissing(builder.extensions, availableExtensions).Some? ==>
              r == Err(MissingFeature(builder.extensions[FirstMissing(builder.extensions, availableExtensions).value]))
    ensures FirstMissing(builder.extensions, availableExtensions).None? && FirstMissing(builder.layers, availableLayers).Some? ==>
              r == Err(MissingFeature(builder.layers[FirstMissing(builder.layers, availableLayers).value]))
    ensures createCalled && createResult != VK_SUCCESS ==> r == Err(UnsuccessfulResult("vkCreateInstance", createResult))
    ensures r.Ok? ==> fresh(r.value) && r.value.handle == handle
    ensures r.Ok? ==> r.value.createInfo.enabledExtensionCount == |builder.extensions|
                      && r.value.createInfo.enabledExtensionNames == builder.extensions
                      && r.value.createInfo.enabledLayerCount == |builder.layers|
                      && r.value.createInfo.enabledLayerNames == builder.layers
    ensures r.Ok? ==> r.value.createInfo.applicationName == builder.appName
                      && r.value.createInfo.engineName == builder.engineName
    ensures r.Ok? ==> r.value.createInfo.applicationVersion == builder.appVersion
                      && r.value.createInfo.engineVersion == builder.engineVersion
                      && r.value.createInfo.apiVersion == VK_API_VERSION_1_0
  {
    createCalled := false;
    var o := CheckNames(builder.extensions, availableExtensions);
    if o.Fail? {
      return Err(o.error), false;
    }
    o := CheckNames(builder.layers, availableLayers);
    if o.Fail? {
      return Err(o.error), false;
    }
    var info := InstanceCreateInfo(builder.appName, builder.appVersion, builder.engineName, builder.engineVersion,
                                   VK_API_VERSION_1_0, |builder.extensions|, builder.extensions,
                                   |builder.layers|, builder.layers);
    createCalled := true;
    if createResult != VK_SUCCESS {
      return Err(UnsuccessfulResult("vkCreateInstance", createResult)), true;
    }
    var instance := new Instance(handle, info);
    return Ok(instance), true;
  }
}
