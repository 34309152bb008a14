/**
  Physical-device and queue-family selection (VulkanRenderer::GetQueueFamilies,
  CheckInstanceExtensionSupport, CheckDeviceExtensionSupport, CheckDeviceSuitable,
  GetPhysicalDevice and the queue requests of CreateLogicalDevice).
  What the driver reports about a device is an input record.
 */
module DeviceSelection {
  import opened Wrappers
  import opened VkTypes
  import opened Utilities

  // ----- Queue families -----

  /** The family has at least one queue and the graphics capability bit. */
  predicate HasGraphics(f: QueueFamily) {
    f.queueCount > 0 && f.queueFlags & VK_QUEUE_GRAPHICS_BIT != 0
  }

  /** The family has at least one queue and can present to the surface. */
  predicate HasPresentation(f: QueueFamily) {
    f.queueCount > 0 && f.presentationSupport
  }

  /** One iteration of the scan: family i overwrites every role it offers. */
  function ScanFamily(indices: QueueFamilyIndices, f: QueueFamily, i: int): QueueFamilyIndices {
    QueueFamilyIndices(
      if HasGraphics(f) then i else indices.graphicsFamily,
      if HasPresentation(f) then i else indices.presentationFamily)
  }

  /** The scan from family i on, `indices` being what families 0..i-1 recorded. */
  function ScanFrom(families: seq<QueueFamily>, i: nat, indices: QueueFamilyIndices): QueueFamilyIndices
    requires i <= |families|
    decreases |families| - i
  {
    if i == |families| then indices
    else
      var next := ScanFamily(indices, families[i], i);
      if next.IsValid() then next else ScanFrom(families, i + 1, next)
  }

  /** The result of GetQueueFamilies for a device reporting `families`. */
  function QueueFamiliesOf(families: seq<QueueFamily>): QueueFamilyIndices {
    ScanFrom(families, 0, NoQueueFamilies)
  }

  /** GetQueueFamilies: scan in index order, stop as soon as both roles are set. */
  method GetQueueFamilies(families: seq<QueueFamily>) returns (indices: QueueFamilyIndices)
    ensures indices == QueueFamiliesOf(families)
  {
    indices := NoQueueFamilies;
    var i := 0;
    while i < |families|
      invariant 0 <= i <= |families|
      invariant ScanFrom(families, i, indices) == QueueFamiliesOf(families)
    {
      indices := ScanFamily(indices, families[i], i);
      if indices.IsValid() {
        break;
      }
      i := i + 1;
    }
  }

  /** What the scan over families 0..i-1 has recorded without stopping. */
  ghost predicate ScannedUpTo(families: seq<QueueFamily>, i: nat, indices: QueueFamilyIndices)
    requires i <= |families|
  {
    && !indices.IsValid()
    && (indices.graphicsFamily == -1 ==> forall j :: 0 <= j < i ==> !HasGraphics(families[j]))
    && (indices.graphicsFamily != -1 ==>
          && 0 <= indices.graphicsFamily < i && HasGraphics(families[indices.graphicsFamily])
          && forall j :: indices.graphicsFamily < j < i ==> !HasGraphics(families[j]))
    && (indices.presentationFamily == -1 ==> forall j :: 0 <= j < i ==> !HasPresentation(families[j]))
    && (indices.presentationFamily != -1 ==>
          && 0 <= indices.presentationFamily < i && HasPresentation(families[indices.presentationFamily])
          && forall j :: indices.presentationFamily < j < i ==> !HasPresentation(families[j]))
  }

  /** What the finished scan promises: each recorded index is the last capable family up to
      where the scan stopped, which is the end of the list when it did not stop early. */
  ghost predicate ScanOutcome(families: seq<QueueFamily>, r: QueueFamilyIndices) {
    && (r.graphicsFamily == -1 <==> forall j :: 0 <= j < |families| ==> !HasGraphics(families[j]))
    && (r.graphicsFamily != -1 ==> 0 <= r.graphicsFamily < |families| && HasGraphics(families[r.graphicsFamily]))
    && (r.presentationFamily == -1 <==> forall j :: 0 <= j < |families| ==> !HasPresentation(families[j]))
    && (r.presentationFamily != -1 ==>
          0 <= r.presentationFamily < |families| && HasPresentation(families[r.presentationFamily]))
    && (r.IsValid() ==> StoppedAt(families, r))
    && (!r.IsValid() && r.graphicsFamily != -1 ==>
          forall j :: r.graphicsFamily < j < |families| ==> !HasGraphics(families[j]))
    && (!r.IsValid() && r.presentationFamily != -1 ==>
          forall j :: r.presentationFamily < j < |families| ==> !HasPresentation(families[j]))
  }

  /**
    The scan stopped at s = max(graphics, presentation): before s no prefix offered both roles,
    and each recorded index is the last family offering that role up to s.
   */
  ghost predicate StoppedAt(families: seq<QueueFamily>, r: QueueFamilyIndices) {
    var s := if r.graphicsFamily < r.presentationFamily then r.presentationFamily else r.graphicsFamily;
    && 0 <= r.graphicsFamily && 0 <= r.presentationFamily && s < |families|
    && ((forall j :: 0 <= j < s ==> !HasGraphics(families[j])) || (forall j :: 0 <= j < s ==> !HasPresentation(families[j])))
    && (forall j :: r.graphicsFamily < j <= s ==> !HasGraphics(families[j]))
    && (forall j :: r.presentationFamily < j <= s ==> !HasPresentation(families[j]))
  }

  lemma {:induction false} ScanFromOutcome(families: seq<QueueFamily>, i: nat, indices: QueueFamilyIndices)
    requires i <= |families|
    requires ScannedUpTo(families, i, indices)
    ensures ScanOutcome(families, ScanFrom(families, i, indices))
    decreases |families| - i
  {
    if i < |families| {
      var next := ScanFamily(indices, families[i], i);
      if next.IsValid() {
        assert ScanFrom(families, i, indices) == next;
        var s := if next.graphicsFamily < next.presentationFamily then next.presentationFamily else next.graphicsFamily;
        assert s == i;
      } else {
        assert ScannedUpTo(families, i + 1, next);
        ScanFromOutcome(families, i + 1, next);
      }
    }
  }

  /** The recorded indices name capable families, -1 means none exists, and the scan exits early. */
  lemma QueueFamiliesFound(families: seq<QueueFamily>)
    ensures ScanOutcome(families, QueueFamiliesOf(families))
    ensures QueueFamiliesOf(families).IsValid() <==>
      (exists j :: 0 <= j < |families| && HasGraphics(families[j]))
      && (exists j :: 0 <= j < |families| && HasPresentation(families[j]))
  {
    ScanFromOutcome(families, 0, NoQueueFamilies);
  }

  /** Families [graphics only, graphics only, presentation only]: the second graphics family is kept. */
  lemma ScanKeepsLastGraphicsFamily()
    ensures QueueFamiliesOf([QueueFamily(1, 1, false), QueueFamily(1, 1, false), QueueFamily(1, 0, true)])
         == QueueFamilyIndices(1, 2)
  {
  }

  // ----- Extensions -----

  /** The inner loop of the extension checks: is `name` among the reported names? */
  function HasExtension(available: seq<string>, name: string): (r: bool)
    ensures r <==> name in available
  {
    if |available| == 0 then false
    else if available[0] == name then true
    else HasExtension(available[1..], name)
  }

  /** CheckInstanceExtensionSupport: every requested name is reported by the instance. */
  function CheckInstanceExtensionSupport(checkExtensions: seq<string>, available: seq<string>): (r: bool)
    ensures r <==> forall i :: 0 <= i < |checkExtensions| ==> checkExtensions[i] in available
  {
    if |checkExtensions| == 0 then true
    else HasExtension(available, checkExtensions[0]) && CheckInstanceExtensionSupport(checkExtensions[1..], available)
  }

  /** CheckDeviceExtensionSupport: no reported extension at all fails; otherwise every required one is listed. */
  function CheckDeviceExtensionSupport(available: seq<string>): (r: bool)
    ensures r <==> |available| > 0 && forall i :: 0 <= i < |DeviceExtensions| ==> DeviceExtensions[i] in available
    ensures r <==> SWAPCHAIN_EXTENSION_NAME in available
  {
    if |available| == 0 then false
    else CheckInstanceExtensionSupport(DeviceExtensions, available)
  }

  // ----- Suitability and selection -----

  /** What the driver reports about one physical device for the renderer's surface. */
  datatype PhysicalDevice = PhysicalDevice(
    queueFamilies: seq<QueueFamily>,
    extensions: seq<string>,
    swapChainDetails: SwapChainDetails)

  /** CheckDeviceSuitable: the surface details are only looked at when the extensions are there. */
  function CheckDeviceSuitable(device: PhysicalDevice): (r: bool)
    ensures r <==>
      && (exists j :: 0 <= j < |device.queueFamilies| && HasGraphics(device.queueFamilies[j]))
      && (exists j :: 0 <= j < |device.queueFamilies| && HasPresentation(device.queueFamilies[j]))
      && SWAPCHAIN_EXTENSION_NAME in device.extensions
      && |device.swapChainDetails.formats| > 0
      && |device.swapChainDetails.presentationModes| > 0
    ensures r ==> QueueFamiliesOf(device.queueFamilies).IsValid()
  {
    QueueFamiliesFound(device.queueFamilies);
    var indices := QueueFamiliesOf(device.queueFamilies);
    var extensionsSupported := CheckDeviceExtensionSupport(device.extensions);
    var swapChainValid := extensionsSupported
      && |device.swapChainDetails.presentationModes| > 0 && |device.swapChainDetails.formats| > 0;
    indices.IsValid() && extensionsSupported && swapChainValid
  }

  /** The position of the first suitable device in enumeration order. */
  function FirstSuitable(devices: seq<PhysicalDevice>): (r: Option<nat>)
    ensures r.Some? ==> r.value < |devices| && CheckDeviceSuitable(devices[r.value])
    ensures r.Some? ==> forall j :: 0 <= j < r.value ==> !CheckDeviceSuitable(devices[j])
    ensures r.None? <==> forall j :: 0 <= j < |devices| ==> !CheckDeviceSuitable(devices[j])
  {
    if |devices| == 0 then None
    else if CheckDeviceSuitable(devices[0]) then Some(0)
    else match FirstSuitable(devices[1..])
      case None => None
      case Some(k) => Some(k + 1)
  }

  /** A suitable device with no suitable device before it is the first suitable one. */
  lemma FirstSuitableAt(devices: seq<PhysicalDevice>, i: nat)
    requires i < |devices| && CheckDeviceSuitable(devices[i])
    requires forall j :: 0 <= j < i ==> !CheckDeviceSuitable(devices[j])
    ensures FirstSuitable(devices) == Some(i)
  {
  }

  datatype DeviceError = NoVulkanDevice | NoSuitableDevice

  /**
    GetPhysicalDevice as written: it throws only when enumeration fails or reports no device;
    when no device is suitable it returns normally and leaves the physical device null (None).
   */
  method GetPhysicalDevice(enumerateResult: VkResult, devices: seq<PhysicalDevice>)
    returns (chosen: Result<Option<nat>, DeviceError>)
    ensures chosen.Failure? <==> |devices| == 0 || enumerateResult != VK_SUCCESS
    ensures chosen.Failure? ==> chosen.error == NoVulkanDevice
    ensures chosen.Success? ==> chosen.value == FirstSuitable(devices)
  {
    if |devices| == 0 || enumerateResult != VK_SUCCESS {
      return Failure(NoVulkanDevice);
    }
    var physicalDevice: Option<nat> := None;
    var i := 0;
    while i < |devices|
      invariant 0 <= i <= |devices|
      invariant physicalDevice.Some? ==> physicalDevice == FirstSuitable(devices)
      invariant physicalDevice.None? ==> forall j :: 0 <= j < i ==> !CheckDeviceSuitable(devices[j])
    {
      if CheckDeviceSuitable(devices[i]) {
        FirstSuitableAt(devices, i);
        physicalDevice := Some(i);
        break;
      }
      i := i + 1;
    }
    chosen := Success(physicalDevice);
  }

  /** One unsuitable device: the as-written selection reports no error and chooses nothing. */
  lemma UnsuitableDeviceNotRejected(d: PhysicalDevice)
    requires d.queueFamilies == []
    ensures FirstSuitable([d]) == None
  {
  }

  /** Device selection that fails with NoSuitableDevice when no device qualifies, so that Init stops. */
  function SelectPhysicalDevice(enumerateResult: VkResult, devices: seq<PhysicalDevice>): (r: Result<nat, DeviceError>)
    ensures r.Success? ==> r.value < |devices| && CheckDeviceSuitable(devices[r.value])
    ensures r.Success? ==> forall j :: 0 <= j < r.value ==> !CheckDeviceSuitable(devices[j])
    ensures r == Failure(NoVulkanDevice) <==> |devices| == 0 || enumerateResult != VK_SUCCESS
    ensures r == Failure(NoSuitableDevice) <==>
      |devices| > 0 && enumerateResult == VK_SUCCESS && forall j :: 0 <= j < |devices| ==> !CheckDeviceSuitable(devices[j])
  {
    if |devices| == 0 || enumerateResult != VK_SUCCESS then Failure(NoVulkanDevice)
    else match FirstSuitable(devices)
      case Some(i) => Success(i)
      case None => Failure(NoSuitableDevice)
  }

  // ----- Logical device -----

  /** One VkDeviceQueueCreateInfo: a family and how many queues to create from it. */
  datatype QueueCreateInfo = QueueCreateInfo(queueFamilyIndex: int, queueCount: nat)

  /** The device create info's queue requests and enabled extensions. */
  datatype DeviceCreateInfo = DeviceCreateInfo(queueCreateInfos: seq<QueueCreateInfo>, enabledExtensions: seq<string>)

  /**
    CreateLogicalDevice: one request per member of std::set<int>{graphics, presentation},
    in the set's ascending order, each for a single queue.
   */
  function LogicalDeviceCreateInfo(indices: QueueFamilyIndices): (r: DeviceCreateInfo)
    ensures |r.queueCreateInfos| == |{indices.graphicsFamily, indices.presentationFamily}|
    ensures (set i | 0 <= i < |r.queueCreateInfos| :: r.queueCreateInfos[i].queueFamilyIndex)
         == {indices.graphicsFamily, indices.presentationFamily}
    ensures forall i, j :: 0 <= i < j < |r.queueCreateInfos| ==>
      r.queueCreateInfos[i].queueFamilyIndex < r.queueCreateInfos[j].queueFamilyIndex
    ensures forall i :: 0 <= i < |r.queueCreateInfos| ==> r.queueCreateInfos[i].queueCount == 1
    ensures r.enabledExtensions == DeviceExtensions
  {
    var g, p := indices.graphicsFamily, indices.presentationFamily;
    var queues :=
      if g == p then [QueueCreateInfo(g, 1)]
      else if g < p then [QueueCreateInfo(g, 1), QueueCreateInfo(p, 1)]
      else [QueueCreateInfo(p, 1), QueueCreateInfo(g, 1)];
    assert g != p ==> |{g, p}| == 2;
    var families := set i | 0 <= i < |queues| :: queues[i].queueFamilyIndex;
    assert families == {g, p} by {
      assert forall i :: 0 <= i < |queues| ==> queues[i].queueFamilyIndex in {g, p};
      assert queues[0].queueFamilyIndex == g || queues[|queues| - 1].queueFamilyIndex == g;
      assert queues[0].queueFamilyIndex == p || queues[|queues| - 1].queueFamilyIndex == p;
    }
    DeviceCreateInfo(queues, DeviceExtensions)
  }
}
