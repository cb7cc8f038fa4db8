/** Queue-family resolution (`QueueIndices` in src/engine/queues.rs): the first
    queue family whose flags contain GRAPHICS provides the graphics index, and
    presentation support is probed on that family alone. */
module Queues {
  import opened Vk
  import opened Outcomes

  /** One entry of `vkGetPhysicalDeviceQueueFamilyProperties` for the device,
      together with the answer `vkGetPhysicalDeviceSurfaceSupportKHR` gives for
      this family and the engine's surface. */
  datatype QueueFamily = QueueFamily(queueFlags: QueueFlags, surfaceSupport: Query<bool>)

  /** The driver reports the family count as a `uint32_t`. */
  type QueueFamilies = s: seq<QueueFamily> | |s| <= UINT32_MAX

  datatype QueueIndices = QueueIndices(graphicsQueueIndex: Option<uint32>, presentationQueueIndex: Option<uint32>)
  {
    /** `is_complete`: both indices were found. */
    predicate IsComplete()
      ensures IsComplete() <==> graphicsQueueIndex.Some? && presentationQueueIndex.Some?
    {
      graphicsQueueIndex.Some? && presentationQueueIndex.Some?
    }
  }

  datatype QueueFamilyIndicesError = NotFoundError

  /** The message `panic!("{}", err)` prints for the error. */
  function ErrorMessage(e: QueueFamilyIndicesError): (s: string)
    ensures e == NotFoundError ==> s == "No families found"
  {
    match e
    case NotFoundError => "No families found"
  }

  predicate HasGraphics(f: QueueFamily) {
    Contains(f.queueFlags, QUEUE_GRAPHICS)
  }

  /** The `enumerate().find(...)` search: the first index at or after `from`
      whose family has the GRAPHICS flag. */
  function FirstGraphicsFrom(families: seq<QueueFamily>, from: nat): (r: Option<nat>)
    requires from <= |families|
    ensures r.Some? ==> from <= r.value < |families| && HasGraphics(families[r.value])
    ensures r.Some? ==> forall j :: from <= j < r.value ==> !HasGraphics(families[j])
    ensures r.None? <==> forall j :: from <= j < |families| ==> !HasGraphics(families[j])
    decreases |families| - from
  {
    if from == |families| then None
    else if HasGraphics(families[from]) then Some(from)
    else FirstGraphicsFrom(families, from + 1)
  }

  function FirstGraphicsFamily(families: seq<QueueFamily>): Option<nat> {
    FirstGraphicsFrom(families, 0)
  }

  /** `find_queue_family_indices`: `NotFoundError` when no family has GRAPHICS;
      otherwise the surface-support probe on the graphics family is unwrapped
      (a driver error panics) and decides whether the presentation index is set. */
  function FindQueueFamilyIndices(families: QueueFamilies): (r: Run<Result<QueueIndices, QueueFamilyIndicesError>>)
    // no GRAPHICS family at all: the error, and nothing is probed
    ensures r == Returned(Err(NotFoundError)) <==> forall j :: 0 <= j < |families| ==> !HasGraphics(families[j])
    ensures r.Returned? ==> r.value.Ok? || r.value == Err(NotFoundError)
    // on success the graphics index is the first GRAPHICS family, a valid index
    ensures r.Returned? && r.value.Ok? ==>
      var g := r.value.value.graphicsQueueIndex;
      && g.Some?
      && g.value < |families|
      && HasGraphics(families[g.value])
      && (forall j :: 0 <= j < g.value ==> !HasGraphics(families[j]))
    // presentation is that same index exactly when its probe answered true
    ensures r.Returned? && r.value.Ok? ==>
      var q := r.value.value;
      && (q.presentationQueueIndex.None? || q.presentationQueueIndex == q.graphicsQueueIndex)
      && (q.presentationQueueIndex.Some? <==> families[q.graphicsQueueIndex.value].surfaceSupport == Ok(true))
    // a failing probe of the graphics family panics with the driver's code
    ensures r.Panicked? <==>
      exists i :: 0 <= i < |families| && HasGraphics(families[i])
                  && (forall j :: 0 <= j < i ==> !HasGraphics(families[j]))
                  && families[i].surfaceSupport.Err?
    ensures r.Panicked? ==>
      && FirstGraphicsFamily(families).Some?
      && families[FirstGraphicsFamily(families).value].surfaceSupport.Err?
      && r.panic == UnwrapFailed(families[FirstGraphicsFamily(families).value].surfaceSupport.error)
  {
    match FirstGraphicsFamily(families)
    case None => Returned(Err(NotFoundError))
    case Some(i) =>
      match families[i].surfaceSupport
      case Err(code) => Panicked(UnwrapFailed(code))
      case Ok(supported) =>
        var index := i as uint32;
        Returned(Ok(QueueIndices(Some(index), if supported then Some(index) else None)))
  }

  /** On success the indices are complete exactly when the graphics family
      supports presenting to the surface. */
  lemma CompleteIffGraphicsFamilyPresents(families: QueueFamilies)
    requires FindQueueFamilyIndices(families).Returned?
    requires FindQueueFamilyIndices(families).value.Ok?
    ensures var i := FirstGraphicsFamily(families);
            && i.Some?
            && (FindQueueFamilyIndices(families).value.value.IsComplete() <==> families[i.value].surfaceSupport == Ok(true))
  {
  }

  /** Only the graphics family is probed: two family lists with the same flags
      whose graphics family gives the same probe answer resolve identically,
      whatever the other families would have answered. */
  lemma ProbeOnlyGraphicsFamily(a: QueueFamilies, b: QueueFamilies)
    requires |a| == |b|
    requires forall j :: 0 <= j < |a| ==> a[j].queueFlags == b[j].queueFlags
    requires forall j :: 0 <= j < |a| && FirstGraphicsFamily(a) == Some(j) ==> a[j].surfaceSupport == b[j].surfaceSupport
    ensures FindQueueFamilyIndices(a) == FindQueueFamilyIndices(b)
  {
    assert forall j :: 0 <= j < |a| ==> HasGraphics(a[j]) == HasGraphics(b[j]);
    var ga, gb := FirstGraphicsFamily(a), FirstGraphicsFamily(b);
    assert ga == gb by {
      if ga.Some? && gb.Some? {
        assert !(ga.value < gb.value) && !(gb.value < ga.value);
      }
    }
  }
}
