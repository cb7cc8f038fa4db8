# metapod bring-up core in Dafny

This project models the part of the `metapod` Vulkan engine that negotiates
a GPU context and keeps the per-frame synchronisation ring:

- **queue-family resolution**: the first queue family with the GRAPHICS flag,
  and a presentation probe on that family only;
- **physical-device selection**: two variants. The main one needs complete
  queue indices, `VK_KHR_swapchain`, and a non-empty list of surface formats
  and of present modes. The variant in `engine/device` needs only complete
  queue indices. Both take the first suitable device in enumeration order;
- **swapchain negotiation**: the support snapshot, the image-count rule
  `min(min_image_count + 1, max_image_count)` and the fixed
  `VkSwapchainCreateInfoKHR` record of the VK_KHR_swapchain chapter of the
  Vulkan 1.3 specification;
- **the frame ring of `Engine`**: `MAX_FRAME_SIZE` (2) slots whose fences are
  created signalled, a cursor at 0, and `draw`, which waits on the current
  fence and then resets it;
- **the diagnostics bridge**: mapping severity to log level, the single
  message format, the constant return value 0, and the subscription masks;
- **`transition_image`**: choosing the aspect and building the fixed barrier.

Every driver call is an input. A query result is a `Query<T>`: the value, or
the VkResult error code. `vkCreateSwapchainKHR` is a function parameter
`driver`. The handles created for each ring slot come from a parameter
`allocate`. Rust panics are not preconditions. Each one is an explicit outcome
`Run<T> = Returned(value) | Panicked(reason)`. This covers `unwrap()` on an
error or on `None`, `panic!`, the `[0]` index and the checked `u32` addition.
The model can therefore state when each panic happens.

Modules follow the source files: `Vk` (API constants and scalar types),
`Outcomes` (`Option`, `Result`, `Run`, `Panic`), `Queues`, `PhysicalDevices`,
`DevicePhysicalDevices`, `Swapchain`, `Engine`, `Debugger`, `Util`.

The model follows the code where it departs from the behaviour the engine
is meant to have:
- Vulkan reads `max_image_count == 0` as "no upper bound", but the image count
  has no special case for it, so the request is clamped to 0;
- a failed support query panics instead of returning
  `FailedToGetSupportDetails`, which is never returned;
- presentation support is probed on the graphics family alone, not on every
  family;
- `draw` never advances the frame cursor to the next ring slot;
- the swapchain's queue-family list holds only the graphics index, even with
  CONCURRENT sharing;
- a device list with no suitable device panics at `first().unwrap()`
  (`src/engine/physical_devices.rs:34`); no "no suitable device" error is
  returned;
- instance creation has no validation-layer check.

The `[0]` index in `check_device_extensions` sits in a `debug!` line. Its
arguments are evaluated only when debug logging is on. `src/main.rs:11` turns
it on, so the model treats the index as always evaluated.

## Model

| member | source | states |
|---|---|---|
| `Queues.FirstGraphicsFrom` | src/engine/queues.rs:29-33 | the result is the first index with the GRAPHICS flag: every earlier family lacks it; `None` iff no family from `from` on has it |
| `Queues.FindQueueFamilyIndices` | src/engine/queues.rs:20-52 | `NotFoundError` iff no family has GRAPHICS. On success the graphics index is the first GRAPHICS family and a valid index. Presentation is `None` or equal to the graphics index, and `Some` iff that family's probe answered `Ok(true)`. It panics iff that family's probe fails, and the panic carries the probe's error code |
| `Queues.QueueIndices.IsComplete` | src/engine/queues.rs:54-56 | the indices are complete iff both the graphics and the presentation index are set |
| `Queues.ErrorMessage` | src/engine/queues.rs:13-17 | `NotFoundError` displays as "No families found" |
| `Queues.CompleteIffGraphicsFamilyPresents` | src/engine/queues.rs:43-56 | on success, `is_complete` holds iff the first GRAPHICS family supports the surface |
| `Queues.ProbeOnlyGraphicsFamily` | src/engine/queues.rs:38-46 | two family lists with equal flags whose graphics family answers the probe alike give equal results, whatever the other families would answer |
| `PhysicalDevices.CountPresentMeaning` | src/engine/physical_devices.rs:59-66 | the count never exceeds the number of required names; it equals that number iff every required name is available |
| `PhysicalDevices.ExtensionsSupported` | src/engine/physical_devices.rs:37-67 | a failed enumeration panics with its code. With a list, it panics (index 0 of 0) iff names are required and none are available. Otherwise the answer is true iff every required name is available; with nothing required it is true |
| `PhysicalDevices.CheckDeviceExtensions` | src/engine/physical_devices.rs:37-67 | the counting loop gives exactly `ExtensionsSupported`: true iff every required name is in the available list, with the same panics |
| `PhysicalDevices.IsDeviceSuitable` | src/engine/physical_devices.rs:69-103 | true iff the first GRAPHICS family presents, `VK_KHR_swapchain` is offered, and formats and present modes are non-empty. It panics iff queue resolution panics or finds no GRAPHICS family (message "No families found"), or the extension check or a support query panics. The support error never reaches its `panic!` |
| `PhysicalDevices.FilterSuitable` | src/engine/physical_devices.rs:28-31 | it returns iff every device's check returns. It then returns exactly the suitable devices, in input order. Every suitable device is kept, and every kept device is suitable and comes from the input. The list is empty iff every device is unsuitable. Its head is the first suitable device |
| `PhysicalDevices.SuitableDevicesSound` | src/engine/physical_devices.rs:28-31 | every device the filter keeps comes from the input, and its check answers `true` |
| `PhysicalDevices.SuitableDevicesComplete` | src/engine/physical_devices.rs:28-31 | every device whose check answers `true` is kept |
| `PhysicalDevices.SuitableDevicesHead` | src/engine/physical_devices.rs:28-34 | when every check returns, nothing is kept iff every device is unsuitable. Otherwise the first kept device is the first suitable one, and every earlier device is unsuitable |
| `PhysicalDevices.SelectFirstSuitable` | src/engine/physical_devices.rs:19-34 | a failed enumeration gives `NoPhysicalDeviceFound`, the only error. It panics iff some check panics or no device is suitable. Otherwise it returns the handle of a suitable device, and every earlier device is unsuitable |
| `PhysicalDevices.FindPhysicalDevice` | src/engine/physical_devices.rs:14-35 | a failed enumeration gives `NoPhysicalDeviceFound`. It panics iff some device's check panics or no device is suitable. Otherwise the chosen handle is that of a device meeting all four requirements, and every earlier device is unsuitable |
| `PhysicalDevices.ChosenDeviceHasSwapchain` | src/engine/physical_devices.rs:69-103 | the chosen device offers `VK_KHR_swapchain` and has a GRAPHICS family |
| `PhysicalDevices.MissingSwapchainIsUnsuitable` | src/engine/physical_devices.rs:89-102 | a device whose extension list lacks `VK_KHR_swapchain` is never suitable |
| `PhysicalDevices.NoGraphicsFamilyPanicsSelection` | src/engine/physical_devices.rs:78-87 | one device without a GRAPHICS family, anywhere in the enumeration, makes selection panic instead of being skipped |
| `PhysicalDevices.NoPresentModeOnlyCandidate` | src/engine/physical_devices.rs:28-34 | a sole candidate with no present mode is rejected, and `first().unwrap()` panics |
| `DevicePhysicalDevices.IsDeviceSuitable` | src/engine/device/physical_devices.rs:32-50 | it returns iff queue resolution returns `Ok`, and then it answers `is_complete()`. It is true iff the first GRAPHICS family presents. No GRAPHICS family panics with "No families found" |
| `DevicePhysicalDevices.FindPhysicalDevice` | src/engine/device/physical_devices.rs:10-30 | a failed enumeration gives `NoPhysicalDeviceFound`. It panics iff some queue resolution fails or no device is suitable. Otherwise the handle is that of the first device with complete queue indices |
| `DevicePhysicalDevices.StricterSuitabilityImpliesThis` | src/engine/device/physical_devices.rs:49 | every device the main selector finds suitable is suitable for this variant too |
| `Swapchain.QuerySwapchainSupport` | src/engine/swapchain.rs:29-51 | it returns iff all three queries succeed, and then returns them unchanged. The first failing query, in field order, panics with its code. `FailedToGetSupportDetails` is never returned |
| `Swapchain.GetImageCount` | src/engine/swapchain.rs:90-92 | the result is at most both arguments and equal to one of them |
| `Swapchain.RequestedImageCount` | src/engine/swapchain.rs:64 | it panics iff `min_image_count` is `u32::MAX`. If `max >= min + 1` the count is `min + 1`. If `max <= min` it is `max`, so `max == 0` gives 0. If `max >= min` it lies in `[min, max]` |
| `Swapchain.BuildCreateInfo` | src/engine/swapchain.rs:62-81 | it panics iff the count overflows or the graphics index is `None`. Otherwise the fields are FIFO, B8G8R8A8_UNORM, SRGB_NONLINEAR, CONCURRENT, 1 layer, OPAQUE, clipped, TRANSFER_DST\|COLOR_ATTACHMENT, no flags and no old swapchain. The extent is `(width, height)`, the pre-transform is the current transform, the queue families are `[graphics]`, and the count is the requested one |
| `Swapchain.ConcurrentSharingWithOneFamily` | src/engine/swapchain.rs:66-76 | every record built asks for CONCURRENT sharing with a one-element queue-family list. Vulkan's valid-usage rule needs more than one index for CONCURRENT sharing, so every record breaks it |
| `Swapchain.CreateSwapchain` | src/engine/swapchain.rs:54-88 | the driver's handle is returned as `Ok`. Its error code is wrapped unchanged in `SwapchainCreationError`. It panics exactly where building the record does |
| `Swapchain.CreateSwapchainImages` | src/engine/swapchain.rs:94-102 | the driver's image list is returned unchanged; any driver error becomes the one image-retrieval error |
| `Swapchain.ThreeImagesForTwoToFour` | src/engine/swapchain.rs:64-81 | with `min = 2` and `max = 4`, one BGRA/sRGB format and FIFO, the record asks for 3 images in that format and mode |
| `Engine.CreateFence` | src/engine/sync_objects.rs:4-7 | the fence starts signalled iff the SIGNALED flag is given |
| `Engine.WaitForFence` | src/engine.rs:57-63 | the wait succeeds iff the fence is signalled; otherwise it times out |
| `Engine.ResetFence` | src/engine.rs:65 | the reset fence keeps its handle and is unsignalled |
| `Engine.NewSlot` | src/engine.rs:120-126 | the slot's command pool is on the graphics family and its fence is signalled. All five handles are the ones allocated for that slot |
| `Engine.Engine.constructor` | src/engine.rs:117-145 | exactly `MAX_FRAME_SIZE` slots, slot `i` built from the `i`-th allocation, every fence signalled, cursor 0 |
| `Engine.Engine.Draw` | src/engine.rs:55-67 | with the current fence signalled, only that fence changes and it becomes unsignalled. Otherwise the wait's `unwrap()` panics with VK_TIMEOUT and nothing changes. The cursor never moves |
| `Engine.FirstDrawAfterNew` | src/engine.rs:117-145 | the first `draw` after `new` returns; slot 0's fence is then unsignalled and slot 1's is still signalled |
| `Engine.SecondDrawTimesOut` | src/engine.rs:55-67 | a second `draw` panics on the timeout: the cursor stays on slot 0, and nothing signals its fence again |
| `Debugger.MessengerSubscription` | src/engine/debugger.rs:7-17 | it subscribes to all four severities and to GENERAL\|VALIDATION\|PERFORMANCE, not to device-address-binding |
| `Debugger.SeverityLevel` | src/engine/debugger.rs:43-58 | the level is warn iff the severity equals WARNING, error iff it equals ERROR, and info otherwise |
| `Debugger.CombinedSeverityIsInfo` | src/engine/debugger.rs:43-58 | WARNING\|ERROR, VERBOSE and INFO all log at info |
| `Debugger.DecimalRoundTrip` | src/engine/debugger.rs:46 | the decimal text of the message id number reads back as that number |
| `Debugger.DecimalIsDecimalText` | src/engine/debugger.rs:46 | the printed message id number is an optional minus sign followed only by digits |
| `Debugger.FormatMessage` | src/engine/debugger.rs:46 | the line starts with the message-type text and ends with the message and a newline |
| `Debugger.DebugCallback` | src/engine/debugger.rs:25-62 | the callback returns 0, logs at the severity's level, and logs the one fixed-format line |
| `Debugger.SeverityOnlyChoosesLevel` | src/engine/debugger.rs:43-61 | all severities log the same text and return the same value, 0 |
| `Util.AspectFor` | src/engine/util.rs:11-14 | the aspect is DEPTH iff the new layout is DEPTH_ATTACHMENT_OPTIMAL, and COLOR otherwise |
| `Util.ImageSubResourceRange` | src/engine/util.rs:32-39 | the range has the given aspect, base level 0, all remaining levels, base layer 0 and all remaining layers. It selects every level and every layer of an image of any size |
| `Util.TransitionBarrier` | src/engine/util.rs:19-27 | the layouts are the inputs. Both stages are ALL_COMMANDS, src access is MEMORY_WRITE and dst access is MEMORY_WRITE\|MEMORY_READ. The aspect follows the new layout. The image stays null and the queue family indices stay 0 |
| `Util.TransitionImage` | src/engine/util.rs:5-30 | the result is always `Ok(())` and the command buffer is left as it was: the barrier is not recorded |

## Left out

- Driver and FFI calls are not modelled. Their results are inputs: `Query` values, the `driver` and `allocate` parameters.
- These driver failures are modelled: the queue-family surface probe, the failed `enumerate_physical_devices` (`NoPhysicalDeviceFound`), extension enumeration, the three swapchain support queries, `vkCreateSwapchainKHR`, the failed `get_swapchain_images` (`FailedToRetrieveImages`), and the timeout of `wait_for_fences` in `draw`.
- These unwraps of driver calls are not modelled, so the model never panics there:
  - `create_fence` and `create_semaphore` (`src/engine/sync_objects.rs:6,11`);
  - the command pool and command buffer creation in `src/engine/frame_data/mod.rs:25,33-37`, which the slot loop of `src/engine.rs:119-127` reaches;
  - `reset_fences(..).unwrap()` in `draw` (`src/engine.rs:65`).
  - `create_debug_utils_messenger(..).unwrap()` in `setup_debugger` (`src/engine/debugger.rs:21`);
  - the error codes of `wait_for_fences` other than the timeout (`src/engine.rs:58-63`). In the model, a wait on a signalled fence never fails.
- Instance creation (`src/engine/instance.rs`) is not modelled: loading the Vulkan library (`Entry::load_from`, with its `panic!` on failure) is I/O, and the file does not compile as written.
- Logical-device creation (`src/engine/device.rs`), command buffers (`src/engine/command_buffers.rs`) and `src/engine/frame_data/mod.rs` only create handles, so they are not modelled. Of `src/engine/sync_objects.rs`, only the effect of `create_fence`'s flags on the fence's initial state is modelled (`Engine.CreateFence`). Handle creation, its `unwrap`, and `create_semaphore` are left out. `src/engine/frame_data/mod.rs` takes 2 arguments, while `src/engine.rs:120-126` passes 5. The slot record follows `src/engine.rs`.
- Windowing and the event loop (`src/app.rs`, `src/main.rs`) are not modelled.
- Device properties and features are queried by `is_device_suitable`, but their values are never used, so they are not modelled.
- Extension names and callback strings are taken as given strings. The C-string decoding steps and their unwraps are not modelled: `extension_name_as_c_str`, `to_str`, `message_id_name_as_c_str().unwrap()`, `message_as_c_str().unwrap()` (`src/engine/debugger.rs:33-41`) and `to_string_lossy`.
- The `{message_type:?}` rendering of the type flags is an input string, because it is the bindings' `Debug` output. The log sink is not modelled.
- Swapchain.RequestedImageCount: the `+ 1` is modelled as a debug build's checked addition, which panics at `u32::MAX`. A release build would wrap it to 0.
- Engine.Engine.constructor: only the slot loop and the cursor are modelled. The earlier bring-up steps of `Engine::new` are modelled one component at a time and are not composed here. The constructor takes the unwrapped graphics queue index.
- Engine.Engine.Draw: GPU execution, semaphore signalling and the 1-second wall-clock wait are not modelled. An unsignalled fence times out at once, because nothing else in the model signals it.
- Advancing the frame cursor `(frame + 1) mod MAX_FRAME_SIZE` is not modelled, because the source never does it.
- `src/engine/physical_devices.rs:83` and `src/engine.rs:93` pass a `QueueFlags` argument that `src/engine/queues.rs:20-25` does not take. The model uses the GRAPHICS flag hard-coded in `queues.rs`.
- `src/engine/device/physical_devices.rs` imports `crate::engine::device::queues`, which is not part of this model. Its `QueueIndices` is taken to be the one in `src/engine/queues.rs`.
