/** The second physical-device selector (src/engine/device/physical_devices.rs):
    the same enumeration and first-suitable policy, with suitability reduced to
    queue-index completeness. */
module DevicePhysicalDevices {
  import opened Vk
  import opened Outcomes
  import opened Queues
  import PhysicalDevices

  /** `is_device_suitable` of this variant: queue resolution (its error is
      turned into a panic), then `is_complete()`. */
  function IsDeviceSuitable(d: PhysicalDevices.PhysicalDevice): (r: Run<bool>)
    ensures r.Returned? <==> FindQueueFamilyIndices(d.queueFamilies).Returned?
                             && FindQueueFamilyIndices(d.queueFamilies).value.Ok?
    ensures r.Returned? ==> (r.value <==> FindQueueFamilyIndices(d.queueFamilies).value.value.IsComplete())
    ensures r == Returned(true) <==>
      && FirstGraphicsFamily(d.queueFamilies).Some?
      && d.queueFamilies[FirstGraphicsFamily(d.queueFamilies).value].surfaceSupport == Ok(true)
    ensures FindQueueFamilyIndices(d.queueFamilies) == Returned(Err(NotFoundError)) ==>
              r == Panicked(Explicit("No families found"))
  {
    match FindQueueFamilyIndices(d.queueFamilies)
    case Panicked(p) => Panicked(p)
    case Returned(Err(e)) => Panicked(Explicit(ErrorMessage(e)))
    case Returned(Ok(queueIndices)) => Returned(queueIndices.IsComplete())
  }

  /** `find_physical_device` of this variant. */
  function FindPhysicalDevice(enumerated: Query<seq<PhysicalDevices.PhysicalDevice>>): (r: Run<Result<Handle, PhysicalDevices.DeviceError>>)
    ensures enumerated.Err? ==> r == Returned(Err(PhysicalDevices.NoPhysicalDeviceFound))
    ensures enumerated.Ok? ==>
      (r.Panicked? <==>
         || (exists i :: 0 <= i < |enumerated.value| && IsDeviceSuitable(enumerated.value[i]).Panicked?)
         || (forall i :: 0 <= i < |enumerated.value| ==> IsDeviceSuitable(enumerated.value[i]) == Returned(false)))
    ensures r.Returned? && r.value.Ok? ==>
      exists i :: 0 <= i < |enumerated.value|
                  && r.value.value == enumerated.value[i].handle
                  && FindQueueFamilyIndices(enumerated.value[i].queueFamilies).value.value.IsComplete()
                  && forall j :: 0 <= j < i ==> IsDeviceSuitable(enumerated.value[j]) == Returned(false)
  {
    PhysicalDevices.SelectFirstSuitable(enumerated, IsDeviceSuitable)
  }

  /** Every device the stricter selector accepts, this one accepts too. */
  lemma StricterSuitabilityImpliesThis(d: PhysicalDevices.PhysicalDevice)
    requires PhysicalDevices.IsDeviceSuitable(d) == Returned(true)
    ensures IsDeviceSuitable(d) == Returned(true)
  {
  }
}
