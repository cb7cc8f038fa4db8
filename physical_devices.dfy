/** Physical-device selection (src/engine/physical_devices.rs): a device is
    suitable when its queue indices are complete, it offers every required
    device extension and its surface reports at least one format and one
    present mode; the first suitable device in enumeration order is chosen. */
module PhysicalDevices {
  import opened Vk
  import opened Outcomes
  import opened Queues
  import opened Swapchain

  /** What the driver reports about one enumerated physical device (for the
      engine's surface). */
  datatype PhysicalDevice = PhysicalDevice(
    handle: Handle,
    queueFamilies: QueueFamilies,
    extensions: Query<seq<string>>,                 // vkEnumerateDeviceExtensionProperties
    capabilities: Query<SurfaceCapabilities>,       // vkGetPhysicalDeviceSurfaceCapabilitiesKHR
    surfaceFormats: Query<seq<SurfaceFormat>>,      // vkGetPhysicalDeviceSurfaceFormatsKHR
    presentModes: Query<seq<PresentMode>>)          // vkGetPhysicalDeviceSurfacePresentModesKHR

  datatype DeviceError = NoPhysicalDeviceFound

  const SWAPCHAIN_EXTENSION_NAME: string := "VK_KHR_swapchain"

  /** The device extensions `is_device_suitable` asks for. */
  const REQUIRED_EXTENSIONS: seq<string> := [SWAPCHAIN_EXTENSION_NAME]

  // ---------------------------------------------------------------------------
  // check_device_extensions

  /** How many entries of `required` (counted with repetition) occur in
      `available`: the value of `count` after the loop has processed `required`. */
  function CountPresent(required: seq<string>, available: seq<string>): nat {
    if required == [] then 0
    else CountPresent(required[..|required| - 1], available)
         + (if required[|required| - 1] in available then 1 else 0)
  }

  lemma {:induction false} CountPresentMeaning(required: seq<string>, available: seq<string>)
    ensures CountPresent(required, available) <= |required|
    ensures CountPresent(required, available) == |required| <==>
              forall k :: 0 <= k < |required| ==> required[k] in available
  {
    if required != [] {
      var init := required[..|required| - 1];
      CountPresentMeaning(init, available);
      assert forall k :: 0 <= k < |init| ==> init[k] == required[k];
    }
  }

  /** What `check_device_extensions` yields: the enumeration is unwrapped, every
      loop iteration first evaluates `available[0]` for its debug line (debug
      logging is enabled by the program), and the answer is whether every
      required name was counted. */
  function ExtensionsSupported(available: Query<seq<string>>, required: seq<string>): (r: Run<bool>)
    ensures available.Err? ==> r == Panicked(UnwrapFailed(available.error))
    ensures available.Ok? ==>
      (r.Panicked? <==> |required| > 0 && |available.value| == 0)
    ensures r.Panicked? && available.Ok? ==> r.panic == IndexOutOfBounds(0, 0)
    ensures r.Returned? ==>
      (r.value <==> forall k :: 0 <= k < |required| ==> required[k] in available.value)
    ensures required == [] && available.Ok? ==> r == Returned(true)
  {
    match available
    case Err(code) => Panicked(UnwrapFailed(code))
    case Ok(names) =>
      if |required| > 0 && |names| == 0 then Panicked(IndexOutOfBounds(0, 0))
      else
        CountPresentMeaning(required, names);
        Returned(CountPresent(required, names) == |required|)
  }

  /** `check_device_extensions`, with its counting loop. */
  method CheckDeviceExtensions(available: Query<seq<string>>, required: seq<string>) returns (r: Run<bool>)
    ensures r == ExtensionsSupported(available, required)
    ensures r.Returned? ==>
      (r.value <==> forall k :: 0 <= k < |required| ==> required[k] in available.value)
  {
    if available.Err? {
      return Panicked(UnwrapFailed(available.error));
    }
    var names := available.value;
    var count := 0;
    for i := 0 to |required|
      invariant count <= i
      invariant count == CountPresent(required[..i], names)
      invariant i > 0 ==> |names| > 0
    {
      if |names| == 0 {
        // `available_extension_properties[0]` in the debug line
        return Panicked(IndexOutOfBounds(0, |names|));
      }
      assert required[..i + 1][..i] == required[..i];
      if required[i] in names {
        count := count + 1;
      }
    }
    assert required[..|required|] == required;
    CountPresentMeaning(required, names);
    r := Returned(count == |required|);
  }

  // ---------------------------------------------------------------------------
  // is_device_suitable

  /** Everything `is_device_suitable` evaluates succeeds and its four-way
      conjunction holds. */
  ghost predicate MeetsRequirements(d: PhysicalDevice) {
    && FirstGraphicsFamily(d.queueFamilies).Some?
    && d.queueFamilies[FirstGraphicsFamily(d.queueFamilies).value].surfaceSupport == Ok(true)
    && d.extensions.Ok?
    && (forall k :: 0 <= k < |REQUIRED_EXTENSIONS| ==> REQUIRED_EXTENSIONS[k] in d.extensions.value)
    && d.capabilities.Ok?
    && d.surfaceFormats.Ok? && |d.surfaceFormats.value| > 0
    && d.presentModes.Ok? && |d.presentModes.value| > 0
  }

  /** A device offering VK_KHR_swapchain has a non-empty extension list, so
      its extension check returns true rather than panicking. */
  lemma RequirementsPassExtensionCheck(d: PhysicalDevice)
    ensures MeetsRequirements(d) ==> ExtensionsSupported(d.extensions, REQUIRED_EXTENSIONS) == Returned(true)
  {
    if MeetsRequirements(d) {
      assert REQUIRED_EXTENSIONS[0] in d.extensions.value;
    }
  }

  /** `is_device_suitable`: queue resolution (its error is turned into a panic),
      the extension check, the support query, then
      `is_complete() && extensions_supported && !formats.is_empty() && !present_modes.is_empty()`. */
  function IsDeviceSuitable(d: PhysicalDevice): (r: Run<bool>)
    ensures r == Returned(true) <==> MeetsRequirements(d)
    ensures FindQueueFamilyIndices(d.queueFamilies) == Returned(Err(NotFoundError)) ==>
              r == Panicked(Explicit("No families found"))
    ensures r.Panicked? <==>
      || FindQueueFamilyIndices(d.queueFamilies).Panicked?
      || FindQueueFamilyIndices(d.queueFamilies).value.Err?
      || ExtensionsSupported(d.extensions, REQUIRED_EXTENSIONS).Panicked?
      || QuerySwapchainSupport(d.capabilities, d.surfaceFormats, d.presentModes).Panicked?
    // the declared support error can never reach the `panic!` on it
    ensures r.Returned? ==> QuerySwapchainSupport(d.capabilities, d.surfaceFormats, d.presentModes).value.Ok?
  {
    RequirementsPassExtensionCheck(d);
    match FindQueueFamilyIndices(d.queueFamilies)
    case Panicked(p) => Panicked(p)
    case Returned(Err(e)) => Panicked(Explicit(ErrorMessage(e)))
    case Returned(Ok(queueIndices)) =>
      match ExtensionsSupported(d.extensions, REQUIRED_EXTENSIONS)
      case Panicked(p) => Panicked(p)
      case Returned(extensionsSupported) =>
        match QuerySwapchainSupport(d.capabilities, d.surfaceFormats, d.presentModes)
        case Panicked(p) => Panicked(p)
        case Returned(Err(e)) => Panicked(Explicit("FailedToGetSupportDetails"))
        case Returned(Ok(support)) =>
          Returned(queueIndices.IsComplete()
                   && extensionsSupported
                   && |support.surfaceFormats| > 0
                   && |support.presentModes| > 0)
  }

  // ---------------------------------------------------------------------------
  // find_physical_device: filter, collect, first, unwrap

  /** The devices a check answers `true` for, in their original order. */
  function SuitableDevices(devices: seq<PhysicalDevice>, suitable: PhysicalDevice -> Run<bool>): seq<PhysicalDevice> {
    if devices == [] then []
    else if suitable(devices[0]) == Returned(true) then [devices[0]] + SuitableDevices(devices[1..], suitable)
    else SuitableDevices(devices[1..], suitable)
  }

  lemma {:induction false} SuitableDevicesSound(devices: seq<PhysicalDevice>, suitable: PhysicalDevice -> Run<bool>)
    ensures forall d :: d in SuitableDevices(devices, suitable) ==> d in devices && suitable(d) == Returned(true)
  {
    if devices != [] {
      SuitableDevicesSound(devices[1..], suitable);
      assert forall d :: d in devices[1..] ==> d in devices;
    }
  }

  lemma {:induction false} SuitableDevicesComplete(devices: seq<PhysicalDevice>, suitable: PhysicalDevice -> Run<bool>)
    ensures forall i :: 0 <= i < |devices| && suitable(devices[i]) == Returned(true) ==> devices[i] in SuitableDevices(devices, suitable)
  {
    if devices != [] {
      SuitableDevicesComplete(devices[1..], suitable);
      assert forall i :: 1 <= i < |devices| ==> devices[i] == devices[1..][i - 1];
    }
  }

  /** When every check returns, the first device kept is the first suitable
      one, and nothing is kept iff every device is unsuitable. */
  lemma {:induction false} SuitableDevicesHead(devices: seq<PhysicalDevice>, suitable: PhysicalDevice -> Run<bool>)
    requires forall i :: 0 <= i < |devices| ==> suitable(devices[i]).Returned?
    ensures SuitableDevices(devices, suitable) == [] <==> forall i :: 0 <= i < |devices| ==> suitable(devices[i]) == Returned(false)
    ensures SuitableDevices(devices, suitable) != [] ==>
      exists i :: 0 <= i < |devices| && SuitableDevices(devices, suitable)[0] == devices[i] && suitable(devices[i]) == Returned(true)
                  && forall j :: 0 <= j < i ==> suitable(devices[j]) == Returned(false)
  {
    if devices != [] {
      var tail := devices[1..];
      assert forall i :: 1 <= i < |devices| ==> devices[i] == tail[i - 1];
      SuitableDevicesHead(tail, suitable);
      if suitable(devices[0]) == Returned(true) {
        assert SuitableDevices(devices, suitable)[0] == devices[0];
      } else {
        assert !suitable(devices[0]).value;
        SkipUnsuitable(devices, suitable, SuitableDevices(tail, suitable));
      }
    }
  }

  /** `iter().filter(suitable).collect()`: every device is examined in order
      (collecting exhausts the iterator); the first panic ends the run.
      Otherwise the result is every suitable device, in order. */
  function FilterSuitable(devices: seq<PhysicalDevice>, suitable: PhysicalDevice -> Run<bool>): (r: Run<seq<PhysicalDevice>>)
    ensures r.Returned? <==> forall i :: 0 <= i < |devices| ==> suitable(devices[i]).Returned?
    ensures r.Returned? ==> r.value == SuitableDevices(devices, suitable)
    ensures r.Returned? ==> forall i :: 0 <= i < |devices| && suitable(devices[i]) == Returned(true) ==> devices[i] in r.value
    ensures r.Returned? ==> forall k :: 0 <= k < |r.value| ==> r.value[k] in devices && suitable(r.value[k]) == Returned(true)
    ensures r.Returned? ==> (r.value == [] <==> forall i :: 0 <= i < |devices| ==> suitable(devices[i]) == Returned(false))
    ensures r.Returned? && r.value != [] ==>
      exists i :: 0 <= i < |devices| && r.value[0] == devices[i] && suitable(devices[i]) == Returned(true)
                  && forall j :: 0 <= j < i ==> suitable(devices[j]) == Returned(false)
  {
    SuitableDevicesSound(devices, suitable);
    SuitableDevicesComplete(devices, suitable);
    var r := FilterAll(devices, suitable);
    if r.Returned? then
      SuitableDevicesHead(devices, suitable);
      r
    else r
  }

  /** The recursion of `FilterSuitable`: it returns iff every check returns,
      and then with the suitable devices. */
  function FilterAll(devices: seq<PhysicalDevice>, suitable: PhysicalDevice -> Run<bool>): (r: Run<seq<PhysicalDevice>>)
    ensures r.Returned? <==> forall i :: 0 <= i < |devices| ==> suitable(devices[i]).Returned?
    ensures r.Returned? ==> r.value == SuitableDevices(devices, suitable)
  {
    if devices == [] then Returned([])
    else
      match suitable(devices[0])
      case Panicked(p) => Panicked(p)
      case Returned(keep) =>
        assert forall i :: 1 <= i < |devices| ==> devices[i] == devices[1..][i - 1];
        match FilterAll(devices[1..], suitable)
        case Panicked(p) => Panicked(p)
        case Returned(kept) => if keep then Returned([devices[0]] + kept) else Returned(kept)
  }

  /** Skipping an unsuitable head moves the first suitable device one place on. */
  lemma SkipUnsuitable(devices: seq<PhysicalDevice>, suitable: PhysicalDevice -> Run<bool>, kept: seq<PhysicalDevice>)
    requires devices != [] && suitable(devices[0]) == Returned(false)
    requires kept != [] ==>
      exists i :: 0 <= i < |devices[1..]| && kept[0] == devices[1..][i] && suitable(devices[1..][i]) == Returned(true)
                  && forall j :: 0 <= j < i ==> suitable(devices[1..][j]) == Returned(false)
    ensures kept != [] ==>
      exists i :: 0 <= i < |devices| && kept[0] == devices[i] && suitable(devices[i]) == Returned(true)
                  && forall j :: 0 <= j < i ==> suitable(devices[j]) == Returned(false)
  {
    if kept != [] {
      var i :| 0 <= i < |devices[1..]| && kept[0] == devices[1..][i] && suitable(devices[1..][i]) == Returned(true)
               && forall j :: 0 <= j < i ==> suitable(devices[1..][j]) == Returned(false);
      assert devices[1..][i] == devices[i + 1];
      forall j | 0 <= j < i + 1
        ensures suitable(devices[j]) == Returned(false)
      {
        if j > 0 {
          assert devices[j] == devices[1..][j - 1];
        }
      }
    }
  }

  /** The shared body of both `find_physical_device` variants: a failed
      enumeration is `NoPhysicalDeviceFound`; otherwise the filtered list's
      `first().unwrap()`, which panics when no device is suitable. */
  function SelectFirstSuitable(enumerated: Query<seq<PhysicalDevice>>, suitable: PhysicalDevice -> Run<bool>): (r: Run<Result<Handle, DeviceError>>)
    ensures enumerated.Err? ==> r == Returned(Err(NoPhysicalDeviceFound))
    ensures r.Returned? && r.value.Err? ==> enumerated.Err?
    ensures enumerated.Ok? ==>
      (r.Panicked? <==>
         || (exists i :: 0 <= i < |enumerated.value| && suitable(enumerated.value[i]).Panicked?)
         || (forall i :: 0 <= i < |enumerated.value| ==> suitable(enumerated.value[i]) == Returned(false)))
    ensures r.Returned? && r.value.Ok? ==>
      exists i :: 0 <= i < |enumerated.value|
                  && r.value.value == enumerated.value[i].handle
                  && suitable(enumerated.value[i]) == Returned(true)
                  && forall j :: 0 <= j < i ==> suitable(enumerated.value[j]) == Returned(false)
  {
    match enumerated
    case Err(_) => Returned(Err(NoPhysicalDeviceFound))
    case Ok(devices) =>
      match FilterSuitable(devices, suitable)
      case Panicked(p) => Panicked(p)
      case Returned(kept) =>
        if kept == [] then Panicked(UnwrapNone)
        else Returned(Ok(kept[0].handle))
  }

  /** `find_physical_device` of src/engine/physical_devices.rs. */
  function FindPhysicalDevice(enumerated: Query<seq<PhysicalDevice>>): (r: Run<Result<Handle, DeviceError>>)
    ensures enumerated.Err? ==> r == Returned(Err(NoPhysicalDeviceFound))
    ensures enumerated.Ok? ==>
      (r.Panicked? <==>
         || (exists i :: 0 <= i < |enumerated.value| && IsDeviceSuitable(enumerated.value[i]).Panicked?)
         || (forall i :: 0 <= i < |enumerated.value| ==> IsDeviceSuitable(enumerated.value[i]) == Returned(false)))
    ensures r.Returned? && r.value.Ok? ==>
      exists i :: 0 <= i < |enumerated.value|
                  && r.value.value == enumerated.value[i].handle
                  && MeetsRequirements(enumerated.value[i])
                  && forall j :: 0 <= j < i ==> IsDeviceSuitable(enumerated.value[j]) == Returned(false)
  {
    SelectFirstSuitable(enumerated, IsDeviceSuitable)
  }

  /** A device is suitable only when it offers VK_KHR_swapchain: so the chosen
      device always does, whatever its queues and formats. */
  lemma ChosenDeviceHasSwapchain(enumerated: Query<seq<PhysicalDevice>>)
    requires FindPhysicalDevice(enumerated).Returned? && FindPhysicalDevice(enumerated).value.Ok?
    ensures exists i :: 0 <= i < |enumerated.value|
                        && FindPhysicalDevice(enumerated).value.value == enumerated.value[i].handle
                        && enumerated.value[i].extensions.Ok?
                        && SWAPCHAIN_EXTENSION_NAME in enumerated.value[i].extensions.value
                        && FirstGraphicsFamily(enumerated.value[i].queueFamilies).Some?
  {
    var i :| 0 <= i < |enumerated.value|
             && FindPhysicalDevice(enumerated).value.value == enumerated.value[i].handle
             && MeetsRequirements(enumerated.value[i])
             && forall j :: 0 <= j < i ==> IsDeviceSuitable(enumerated.value[j]) == Returned(false);
    assert REQUIRED_EXTENSIONS[0] == SWAPCHAIN_EXTENSION_NAME;
  }

  /** A device without VK_KHR_swapchain is never suitable. */
  lemma MissingSwapchainIsUnsuitable(d: PhysicalDevice)
    requires d.extensions.Ok? && SWAPCHAIN_EXTENSION_NAME !in d.extensions.value
    ensures IsDeviceSuitable(d) != Returned(true)
  {
    assert REQUIRED_EXTENSIONS[0] == SWAPCHAIN_EXTENSION_NAME;
  }

  /** A device whose queue families have no GRAPHICS flag makes selection panic
      instead of being skipped, wherever it is in the enumeration. */
  lemma NoGraphicsFamilyPanicsSelection(devices: seq<PhysicalDevice>, i: nat)
    requires i < |devices|
    requires forall j :: 0 <= j < |devices[i].queueFamilies| ==> !HasGraphics(devices[i].queueFamilies[j])
    ensures FindPhysicalDevice(Ok(devices)).Panicked?
  {
    assert IsDeviceSuitable(devices[i]).Panicked?;
  }

  /** The only candidate reports no present mode: it is rejected, and the
      `first().unwrap()` on the empty list panics. */
  lemma NoPresentModeOnlyCandidate(d: PhysicalDevice)
    requires d.extensions.Ok? && |d.extensions.value| > 0
    requires d.capabilities.Ok? && d.surfaceFormats.Ok?
    requires d.presentModes == Ok([])
    requires FindQueueFamilyIndices(d.queueFamilies).Returned?
    requires FindQueueFamilyIndices(d.queueFamilies).value.Ok?
    ensures FindPhysicalDevice(Ok([d])) == Panicked(UnwrapNone)
  {
    assert IsDeviceSuitable(d) == Returned(false);
    assert FilterSuitable([d], IsDeviceSuitable) == Returned([]) by {
      assert [d][1..] == [];
    }
  }
}
