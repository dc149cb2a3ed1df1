# saturn — a Dafny model of the Vulkan wrapper's core

saturn is a small C++ library that wraps Vulkan object lifetimes in RAII classes built by
fluent builders. This project models the library's own logic:

- the levelled logger and its console variant;
- command pools, command buffers (as a log of recorded commands), and the command dispatcher with its leases;
- staged buffer upload;
- physical-device selection by required and preferred criteria;
- the instance and device builders;
- the render-pass builder;
- both swapchain builders, including the image-view creation and its roll-back.

Driver calls are not executed. Each one becomes a parameter carrying the `VkResult` (and, where
one is needed, the handle) that the driver would return. The state each wrapper changes is modelled
as a Dafny `class`. Each builder setter is a method whose contract states the field it sets and
that no other field changes. Pure selection rules are functions, proved against their own
specifications.

The modules follow the source files:

- `Vk` holds the shared types: results, errors, `uint32` and sharing mode.
- `Logging` models `logger.cpp`.
- `Commands` models `command.cpp`.
- `Buffers` models `buffer.cpp`.
- `PhysicalDevices` models `physical_device.cpp`.
- `Requirements` models `local.hpp`.
- `Instances` models `instance.cpp`.
- `Devices` models `device.cpp`.
- `RenderPasses` models `render_pass.cpp`.
- `Swapchains` models `swapchain.cpp`.
- `LegacySwapChains` models the older `swap_chain.cpp`.

A thrown `std::runtime_error` becomes `Err(RuntimeError(message))`. In a debug build, `SATURN_CALL`
throws an `UnsuccessfulResultException`, which becomes `Err(UnsuccessfulResult(function, result))`;
the model keeps only the Vulkan function's name, not the call text, file and line the exception
carries. A missing extension or layer becomes `Err(MissingFeature(name))`. An exception escaping a
`noexcept` function ends the process; the model reports that as `terminated` (or `None`).

Lines a logger emits are modelled as `Record(level, message)` values. Each logging operation
returns the records it emitted. Its contract states that the logger's `forwarded` list grows by
exactly those records that pass the logger's threshold. The console text is `Logger.Output()`, a
function of the forwarded records: one `ConsoleLine` per record.

## Model

| member | source | states |
|---|---|---|
| Vk.ToU32 | src/swapchain.cpp:101-118 | a conversion to `uint32` is the identity in range and otherwise agrees with the input modulo 2^32 |
| Vk.FirstFailure | src/command.cpp:262-270 | the index of the first failing driver result, with every earlier one successful; none exactly when all succeed |
| Vk.SharingFor | src/buffer.cpp:92-102 | exclusive sharing exactly when no queue family is given; concurrent sharing carries every family and their count |
| Logging.ValueOf | src/logger.cpp:16-26 | each level's colour code is a 7-character ANSI escape; the named levels, and only those, get a colour other than the fallback |
| Logging.StringOf | src/logger.cpp:28-38 | each level's tag is 7 characters in parentheses; it is "(unkwn)" exactly for an unnamed level |
| Logging.LevelEncodingInjective | src/logger.cpp:16-38 | distinct named levels have distinct colour codes and distinct tags |
| Logging.ConsoleLineLayout | src/logger.cpp:66-71 | a console line is the colour code, then the tag, then " [name] ", then the message, then the reset code, each at its fixed offset |
| Logging.Forwarded | src/logger.cpp:49-55 | filtering never adds records |
| Logging.ForwardedMembers | src/logger.cpp:49-55 | a record is forwarded if and only if it was emitted and its level passes the threshold |
| Logging.ForwardedAppend | src/logger.cpp:49-55 | filtering two runs of records in sequence equals filtering their concatenation |
| Logging.Printed | src/logger.cpp:66-71 | a logger without a console prints nothing; a console logger prints one line per forwarded record |
| Logging.PrintedLine | src/logger.cpp:66-71 | the i-th printed line is the console line of the i-th forwarded record |
| Logging.PrintedAppend | src/logger.cpp:66-71 | console output is additive over forwarded records |
| Logging.Logger.constructor | src/logger.cpp:45-47 | a new logger has the given threshold (default Error), no console, and nothing forwarded |
| Logging.Logger.Console | src/logger.cpp:61-64 | a console logger has the given name and threshold (default Info); nothing is forwarded or printed yet |
| Logging.Logger.Log | src/logger.cpp:49-55 | a record passing the threshold is forwarded, and a console logger prints its line; a record below the threshold changes nothing |
| Logging.LogEach | src/logger.cpp:49-55 | logging a run of records forwards exactly the filtered run, in order |
| Logging.ConsoleAfter | src/logger.cpp:49-71 | after logging a run of records, the console holds the earlier lines followed by one line per forwarded record |
| Logging.DefaultThresholds | include/saturn/logger.hpp:11-17 | the default Error threshold passes only Error; the console's default Info threshold passes every named level except Trace |
| Commands.CopyRegion | src/command.cpp:212-231 | a copy region overwrites exactly the destination's range with the source's range and leaves the rest of the destination intact |
| Commands.CopyWholeBuffer | src/command.cpp:212-224 | a full-size copy at offset zero makes the destination equal to the source |
| Commands.Execute | src/command.cpp:101-231 | executing recorded commands keeps the set of buffers and every buffer's size |
| Commands.ExecuteSingleCopy | src/command.cpp:226-231 | executing one recorded single-region copy is that region's copy on the destination buffer |
| Commands.CommandBuffer.constructor | src/command.cpp:83 | a default command buffer holds the null handle and has recorded nothing |
| Commands.CommandBuffer.Wrap | src/command.cpp:83 | wrapping a handle keeps it and records nothing |
| Commands.CommandBuffer.MoveFrom | src/command.cpp:88-90 | move construction takes over the other buffer's handle |
| Commands.CommandBuffer.MoveAssign | src/command.cpp:92-99 | move assignment takes the other's handle and leaves the other null |
| Commands.CommandBuffer.Record | src/command.cpp:101-112 | `vkBeginCommandBuffer` success records a begin-recording command with the one-time flag; failure throws and records nothing |
| Commands.CommandBuffer.Stop | src/command.cpp:114-117 | `vkEndCommandBuffer` success records the end of recording; failure throws |
| Commands.CommandBuffer.Reset | src/command.cpp:119-122 | `vkResetCommandBuffer` success records a reset; failure throws |
| Commands.CommandBuffer.Begin | src/command.cpp:124-141 | begins a render pass over the area at the offset (default origin) with the opaque-black clear value |
| Commands.CommandBuffer.End | src/command.cpp:143-146 | records the end of the render pass |
| Commands.CommandBuffer.SetViewportFor | src/command.cpp:148-162 | sets viewport 0 from the offset, the extent and the depth range (default 0 to 1) |
| Commands.CommandBuffer.SetViewport0 | src/command.cpp:164-167 | sets viewport 0 to the given viewport |
| Commands.CommandBuffer.SetScissorFor | src/command.cpp:169-177 | sets scissor 0 to the rectangle at the offset with the extent |
| Commands.CommandBuffer.SetScissor0 | src/command.cpp:179-182 | sets scissor 0 to the given rectangle |
| Commands.CommandBuffer.Bind | src/command.cpp:184-187 | binds the pipeline at the graphics bind point |
| Commands.CommandBuffer.BindVertexBuffer | src/command.cpp:189-193 | binds one vertex buffer at binding 0 with the offset |
| Commands.CommandBuffer.BindIndex | src/command.cpp:195-200 | binds the index buffer with the offset and the index type |
| Commands.CommandBuffer.DrawVertices | src/command.cpp:202-205 | draws `count` vertices, one instance, from `index` |
| Commands.CommandBuffer.DrawIndices | src/command.cpp:207-210 | draws `count` indices, one instance, from `index`, vertex offset 0 |
| Commands.CommandBuffer.Copy | src/command.cpp:212-224 | records one copy, source to destination, of one region with the size and both offsets (default 0) |
| Commands.CommandBuffer.CopyRegions | src/command.cpp:226-231 | records a copy of the single given region |
| Commands.PoolCreateFlags | src/command.cpp:35-49 | the reset-command-buffer bit is set if and only if the builder asks for resets, and no other bit is set |
| Commands.CommandPool.constructor | src/command.cpp:35-49 | a pool whose creation succeeded has the builder's queue family and flags and no live buffers |
| Commands.CommandPool.Create | src/command.cpp:35-49 | a failing `vkCreateCommandPool` throws with its result; otherwise the pool has the builder's queue family and flags and no live buffers |
| Commands.CommandPool.Allocate | src/command.cpp:56-68 | a failing `vkAllocateCommandBuffers` throws with its result and allocates nothing; otherwise a fresh primary buffer with a new live handle and an empty log |
| Commands.CommandPool.Free | src/command.cpp:70-77 | freeing a live buffer removes its handle from the pool and resets the buffer to null; freeing a null buffer does nothing |
| Commands.FreeTwice | src/command.cpp:70-77 | freeing twice is the same as freeing once |
| Commands.HandleRange | src/command.cpp:262-270 | the handles allocated by n consecutive allocations are exactly the n ids from the first one |
| Commands.CommandDispatcher.FromStack | src/command.cpp:262-270 | once its buffers are allocated, the dispatcher holds all of them on the free stack, all available, none leased |
| Commands.CommandDispatcher.Create | src/command.cpp:262-270 | the process terminates exactly when some allocation fails, with the buffers allocated before the first failure still live; otherwise the dispatcher holds `count` buffers in allocation order, all available |
| Commands.CommandDispatcher.Destroy | src/command.cpp:272-279 | destruction frees every stacked buffer and empties the stack |
| Commands.CommandDispatcher.Acquire | src/command.cpp:286-295 | acquiring pops the top buffer and takes one unit of availability |
| Commands.CommandDispatcher.Release | src/command.cpp:297-303 | releasing pushes the buffer back and returns one unit of availability |
| Commands.CommandDispatcher.LeaseBuffer | src/command.cpp:281-284 | a lease holds the top buffer, taken by acquire |
| Commands.Lease.constructor | src/command.cpp:253-255 | constructing a lease acquires the top buffer from its dispatcher |
| Commands.Lease.Release | src/command.cpp:257-260 | ending a lease pushes its buffer back onto the dispatcher |
| Commands.ReleaseThenAcquire | src/command.cpp:286-303 | release followed by acquire returns the same buffer and restores the dispatcher's state |
| Buffers.DeviceCreateInfo | src/buffer.cpp:84-102 | the device buffer has the requested size, the requested usage plus transfer-destination, and sharing from the queue families |
| Buffers.WithTransferDst | src/buffer.cpp:90 | the transfer-destination bit is set and every other usage bit is kept |
| Buffers.StagingCreateInfo | src/buffer.cpp:119-136 | the staging buffer has the same size, transfer-source usage only, and exclusive sharing |
| Buffers.Overlay | src/buffer.cpp:147-149 | writing data at an offset replaces exactly that range and keeps every other byte |
| Buffers.OverlayDisjoint | src/buffer.cpp:145-149 | two writes to disjoint ranges commute and give the expected prefix, data and suffix layout |
| Buffers.FlattenLength | include/saturn/buffer.hpp:115-119 | a span of k-byte elements flattens to element count times k bytes |
| Buffers.UploadMakesDeviceEqualStaging | src/buffer.cpp:151-155 | executing the upload commands makes the device buffer equal to the staging buffer and leaves the staging buffer unchanged |
| Buffers.BufferPool.constructor | src/buffer.cpp:29-47 | the pool keeps the command pool and the queue |
| Buffers.WriteBytes | src/buffer.cpp:147-149 | the byte copy into the mapped staging memory is the overlay of the data at the offset |
| Buffers.RecordUpload | src/buffer.cpp:151-155 | the upload buffer records begin, one whole-buffer copy from staging to device, and end, and is complete exactly when both driver calls succeed |
| Buffers.Buffer.constructor | src/buffer.cpp:84-137 | a buffer holds the device and staging create infos for its size, usage and families |
| Buffers.Buffer.Put | src/buffer.cpp:145-169 | put writes the data into staging; the process terminates exactly when the allocation, either recording call or the fence creation fails; otherwise the device contents equal the staging contents and the upload buffer is freed again |
| Buffers.Buffer.PutSpan | include/saturn/buffer.hpp:115-119 | the typed put writes the flattened elements, whose size is element count times element size, and terminates under the same conditions as put |
| Buffers.TwoHalvesScenario | src/buffer.cpp:145-169 | two puts to the two halves of a 64-byte buffer leave both patterns on the device |
| PhysicalDevices.FirstGraphicsFamily | src/physical_device.cpp:42-56 | returns the first queue family with the graphics bit, or none exactly when no family has it |
| PhysicalDevices.FindGraphicsQueue | src/physical_device.cpp:42-56 | the loop returns the first graphics family index |
| PhysicalDevices.DeviceCriterion | src/physical_device.cpp:169-177 | scores the bias (default 1000) exactly for devices of the given type and rejects the others |
| PhysicalDevices.WeighDevices | src/physical_device.cpp:179-190 | accepts every device: discrete 1000, integrated 500, any other type 0 |
| PhysicalDevices.GraphicsQueueFamily | src/physical_device.cpp:192-199 | scores the bias exactly for devices with a graphics queue family |
| PhysicalDevices.ExtensionCriterion | src/physical_device.cpp:211-225 | scores the bias exactly for devices that offer the named extension |
| PhysicalDevices.Required | src/physical_device.cpp:101-123 | filtering keeps only devices the criterion accepts and never lengthens the list |
| PhysicalDevices.KeptMembers | src/physical_device.cpp:101-123 | the plain filter keeps an entry exactly when it was present and the criterion accepts its device |
| PhysicalDevices.PreferredAppend | src/physical_device.cpp:125-137 | biasing distributes over concatenation |
| PhysicalDevices.RequiredIsPreferredKept | src/physical_device.cpp:101-123 | a requirement equals the plain filter followed by the bias, so every survivor's score becomes its old score plus the criterion's value |
| PhysicalDevices.RequiredAppend | src/physical_device.cpp:101-123 | filtering distributes over concatenation, so relative order is kept |
| PhysicalDevices.RequiredSurvivors | src/physical_device.cpp:101-123 | a device survives a requirement if and only if it was present and the criterion accepts it |
| PhysicalDevices.RequiredKeepsAllWhenNoneFiltered | src/physical_device.cpp:101-123 | when every device is accepted, the requirement keeps the device list |
| PhysicalDevices.Preferred | src/physical_device.cpp:125-137 | a preference keeps every device in order and adds the criterion's score exactly to the accepted devices |
| PhysicalDevices.BestIndex | src/physical_device.cpp:139-161 | the chosen index has the highest score, and it is the first index with that score |
| PhysicalDevices.ScanAsWritten | src/physical_device.cpp:139-161 | the as-written scan only ever picks an index in range |
| PhysicalDevices.SelectAsWritten | src/physical_device.cpp:139-161 | an as-written pick is in range |
| PhysicalDevices.SelectAsWrittenUninitialised | src/physical_device.cpp:139-161 | a single device scored INT_MIN is never picked, so the returned pointer is uninitialised |
| PhysicalDevices.ScanAsWrittenFindsBest | src/physical_device.cpp:139-161 | when some score exceeds INT_MIN the scan picks the first best index; otherwise it picks nothing |
| PhysicalDevices.SelectAgreesAboveIntMin | src/physical_device.cpp:139-161 | above INT_MIN the as-written selection and the corrected one agree |
| PhysicalDevices.PhysicalDeviceSelector.FromDevices | src/physical_device.cpp:83-99 | the selector starts with every available device, each scored 0 |
| PhysicalDevices.PhysicalDeviceSelector.Create | src/physical_device.cpp:83-99 | it throws "Found no available physical devices" exactly when there are none |
| PhysicalDevices.PhysicalDeviceSelector.Require | src/physical_device.cpp:101-123 | the erase loop leaves exactly the filtered list, each survivor's score raised by the criterion's value |
| PhysicalDevices.PhysicalDeviceSelector.Prefer | src/physical_device.cpp:125-137 | the loop adds the preference's scores in place |
| PhysicalDevices.PhysicalDeviceSelector.Select | src/physical_device.cpp:139-161 | returns none exactly when no device remains, otherwise the first device with the highest score |
| Requirements.VkCall | src/local.hpp:14-22 | a failing call logs "call: result" at Error and throws the message; success logs nothing |
| Requirements.FoundLine | src/local.hpp:44-58 | an available item's line is "\n [X] " or "\n [ ] " followed by its name |
| Requirements.ScanAvailable | src/local.hpp:34-58 | after the scan, the remaining set is the required names not available, and an item is marked exactly when it was still required when reached |
| Requirements.ListMissing | src/local.hpp:62-82 | the missing list is the remaining set without repeats, each name on a "[-]" line |
| Requirements.EvaluateRequiredItems | src/local.hpp:26-83 | the result is true exactly when every required name is available; the trace line lists every available item with its mark; the Error line lists each missing name |
| Instances.MakeVersionRoundTrip | src/instance.cpp:30-36 | the packed version decodes to its major, minor and patch when each is in range |
| Instances.EngineVersionTriplesPatch | src/instance.cpp:45-51 | the engine version packs the patch multiplied by three |
| Instances.EngineVersionSpills | src/instance.cpp:45-51 | a patch of 1366 overflows into the minor field |
| Instances.InstanceBuilder.constructor | src/instance.cpp:15-21 | defaults: the "saturn" names, engine version 0.1.0, and with validation the debug-utils extension and the Khronos validation layer |
| Instances.InstanceBuilder.ApplicationName | src/instance.cpp:23-28 | sets the application name only |
| Instances.InstanceBuilder.ApplicationVersion | src/instance.cpp:30-36 | sets the packed application version only |
| Instances.InstanceBuilder.EngineName | src/instance.cpp:38-43 | sets the engine name only |
| Instances.InstanceBuilder.SetEngineVersion | src/instance.cpp:45-51 | sets the engine version, as packed by the source, only |
| Instances.InstanceBuilder.AddExtension | src/instance.cpp:53-58 | appends one extension only |
| Instances.InstanceBuilder.AddLayer | src/instance.cpp:60-64 | appends one layer only |
| Instances.InstanceBuilder.DebugCallback | src/instance.cpp:66-71 | installs the callback only |
| Instances.FirstMissing | src/instance.cpp:79-123 | finds the first required name that is not available, or none exactly when every required name is available |
| Instances.FirstMissingIsFirst | src/instance.cpp:79-123 | any index that is missing and has every earlier name available is the one found |
| Instances.CheckNames | src/instance.cpp:79-123 | the nested loop of both evaluate_instance_extensions and evaluate_instance_layers passes exactly when every required name is available, and otherwise throws naming the first missing one |
| Instances.Instance.constructor | src/instance.cpp:138-195 | the instance keeps the handle and the create info |
| Instances.CreateInstance | src/instance.cpp:138-195 | extensions are checked before layers; `vkCreateInstance` is called exactly when both checks pass; the create info carries the builder's application and engine names and versions, and its extensions and layers with their counts |
| Devices.WithQueue | src/device.cpp:17-22 | adding a queue appends its priority to its family's list, starting a new list for a new family, and leaves other families untouched |
| Devices.AddQueuesInOrder | src/device.cpp:17-22 | repeated addQueue calls for one family append the priorities in call order |
| Devices.DeviceBuilder.constructor | src/device.cpp:12-15 | a new builder has no queues |
| Devices.DeviceBuilder.AddQueue | src/device.cpp:17-22 | one addQueue call is one `WithQueue` step |
| Devices.QueueCreateInfos | src/device.cpp:38-47 | one queue create info per family, each with that family's priorities and their count, no family twice |
| Devices.Decimal | src/device.cpp:59-61 | a count prints as decimal digits that denote it, with a leading zero only for the count 0 |
| Devices.Device.constructor | src/device.cpp:33-62 | the device keeps the handle and the queue create infos |
| Devices.CreateDevice | src/device.cpp:33-62 | a failing `vkCreateDevice` logs and throws "Failed to create device"; success logs the family count at Trace |
| Devices.Queue | src/device.cpp:69-80 | returns the driver's queue after a Trace line naming the family and the index |
| RenderPasses.ColorAttachment | src/render_pass.cpp:16-32 | a colour attachment has one sample, is cleared on load and stored, ignores stencil, and goes from undefined to present layout |
| RenderPasses.ColorReferences | src/render_pass.cpp:45-61 | a subpass reads exactly its count of colour references |
| RenderPasses.RenderPassBuilder.constructor | src/render_pass.cpp:12-14 | a new builder is empty |
| RenderPasses.RenderPassBuilder.CreateColorAttachment | src/render_pass.cpp:16-32 | appends the colour attachment for the format |
| RenderPasses.RenderPassBuilder.Begin | src/render_pass.cpp:34-43 | appends a subpass with no colour attachments at the bind point |
| RenderPasses.RenderPassBuilder.AddColorAttachment | src/render_pass.cpp:63-73 | appends a reference to the pending list |
| RenderPasses.RenderPassBuilder.End | src/render_pass.cpp:45-61 | the last subpass points at a stored copy of the pending references; earlier subpasses keep theirs; nothing is left pending |
| RenderPasses.RenderPass.constructor | src/render_pass.cpp:79-91 | keeps the handle and the create info |
| RenderPasses.CreateRenderPass | src/render_pass.cpp:79-91 | the create info carries every subpass and every attachment; a failing call throws |
| RenderPasses.OneSubpassScenario | src/render_pass.cpp:34-73 | begin, two attachment references and end give one subpass that reads both references in order |
| Swapchains.ClampImageCount | src/swapchain.cpp:120-132 | the count never grows, stays at or below a nonzero maximum, and is kept when it fits |
| Swapchains.ClampImageCountIdempotent | src/swapchain.cpp:120-132 | clamping twice is clamping once |
| Swapchains.InitialImageCount | src/swapchain.cpp:54-70 | the default count is min+1 when that fits, never above a nonzero maximum, and 0 when min+1 wraps around |
| Swapchains.StdClamp | src/swapchain.cpp:101-118 | `std::clamp` stays within ordered bounds and keeps a value already inside them |
| Swapchains.ChooseExtent | src/swapchain.cpp:101-118 | the surface's current extent wins unless its width is the `uint32` maximum; otherwise the requested size is clamped to the bounds |
| Swapchains.NegativeWidthSelectsMaximum | src/swapchain.cpp:101-118 | a negative width converts to a huge unsigned value and clamps to the maximum width |
| Swapchains.FindSurfaceFormat | src/swapchain.cpp:72-86 | finds the requested format and colour space exactly when the surface offers the pair |
| Swapchains.SwapchainInfo | src/swapchain.cpp:160-186 | the create info carries the chosen format, colour space, extent, image count, usage and present mode, one layer, clipping, the current transform, and sharing from the families |
| Swapchains.SwapchainBuilder.constructor | src/swapchain.cpp:54-70 | defaults: the first surface format, the first present mode, the initial image count, and colour-attachment usage |
| Swapchains.SwapchainBuilder.SelectSurfaceFormat | src/swapchain.cpp:72-86 | takes the requested pair only when the surface offers it |
| Swapchains.SwapchainBuilder.SelectPresentMode | src/swapchain.cpp:88-99 | takes the requested mode only when the surface offers it |
| Swapchains.SwapchainBuilder.Extent | src/swapchain.cpp:101-118 | sets the extent to the chosen one only |
| Swapchains.SwapchainBuilder.ImageCount | src/swapchain.cpp:120-132 | sets the clamped image count only |
| Swapchains.SwapchainBuilder.Usage | src/swapchain.cpp:134-138 | replaces the usage flags only |
| Swapchains.SwapchainBuilder.Share | src/swapchain.cpp:140-145 | replaces the sharing families only |
| Swapchains.Countdown | src/swapchain.cpp:219-228 | views are created from the last image down to the given index |
| Swapchains.Teardown | src/swapchain.cpp:236-244 | views are destroyed upward from the given index |
| Swapchains.LastFailure | src/swapchain.cpp:219-228 | the highest failing index, or none exactly when every view creation succeeds |
| Swapchains.LastFailureIs | src/swapchain.cpp:219-228 | a failing index with only successes above it is the last failure |
| Swapchains.CreateDescending | src/swapchain.cpp:219-228 | the loop stops at the highest failing index, keeps the views created above it, and records creations in descending order |
| Swapchains.DestroyAbove | src/swapchain.cpp:236-244 | the abort path destroys exactly the views above the failed index, in ascending order |
| Swapchains.CreateViews | src/swapchain.cpp:219-244 | all views are created, or the ones above the failure are destroyed and "Failed to create swap chain image views" is thrown |
| Swapchains.Swapchain.Assemble | src/swapchain.cpp:151-245 | the swapchain keeps the handle, the create info, the images and the views |
| Swapchains.CreateSwapchain | src/swapchain.cpp:151-245 | a failing `vkCreateSwapchainKHR` throws with its result; a view failure destroys the created views and then the swapchain; success keeps every view |
| LegacySwapChains.SwapChainBuilder.constructor | src/swap_chain.cpp:53-69 | the same defaults as the newer builder |
| LegacySwapChains.SwapChainBuilder.SelectSurfaceFormat | src/swap_chain.cpp:71-85 | takes the requested pair only when the surface offers it |
| LegacySwapChains.SwapChainBuilder.SelectPresentMode | src/swap_chain.cpp:87-98 | takes the requested mode only when the surface offers it |
| LegacySwapChains.SwapChainBuilder.Extent | src/swap_chain.cpp:100-117 | sets the chosen extent only |
| LegacySwapChains.SwapChainBuilder.ImageCount | src/swap_chain.cpp:119-131 | sets the clamped image count only |
| LegacySwapChains.SwapChainBuilder.Usage | src/swap_chain.cpp:133-137 | replaces the usage flags only |
| LegacySwapChains.SwapChainBuilder.Share | src/swap_chain.cpp:139-144 | replaces the sharing families only |
| LegacySwapChains.SwapChainBuilder.Info | src/swap_chain.cpp:175-195 | the create info uses sharing from the families and the chosen count and extent |
| LegacySwapChains.SwapChainBuilder.Build | src/swap_chain.cpp:146-149 | build constructs the swap chain from this builder |
| LegacySwapChains.SwapChain.Assemble | src/swap_chain.cpp:155-272 | the swap chain keeps the handle, the create info, the images and the views |
| LegacySwapChains.CreateSwapChain | src/swap_chain.cpp:155-272 | a failing `vkCreateSwapchainKHR` throws "Failed to create swap chain"; view creation and its roll-back are as in the newer swapchain |

## Left out

- Concurrency: the dispatcher's counting semaphore and mutex are not modelled. `Acquire` instead requires an available buffer, where the source would block.
- `sync.cpp` (fences and semaphores) is not part of this model. In `put`, the fence creation is reduced to its result (`fenceResult`) and the fence wait is an opaque step.
- Driver queries are not part of this model: `swap_chain::query`, `device::query`, `Instance::devices`, `find_present_queue`, `present_capable`, `present_queue_family` and `Swapchain::acquireNextImage`. Their results become parameters.
- The Vulkan Memory Allocator is not part of this model. Allocation returns caller-chosen handles, and the mapped staging memory is a Dafny array.
- `pipeline.cpp`, `framebuffer.cpp`, `shader.cpp` and `examples/basic/main.cpp` are not part of this model.
- Floating-point values (queue priorities, viewport depth, clear colour) are `real`.
- The debug messenger and its callback are reduced to a flag. The messenger's creation through `vkGetInstanceProcAddr` is not modelled.
- The buffer and pool builders' setters (`size`, `usage`, `share`) are folded into the `Buffer` and `BufferPool` constructor parameters.
- `DeviceBuilder::addExtension` is declared but never defined, so it is not modelled.
- The logger a device logs to comes from `instance_->logger()`, which `Instance` does not declare. It is a parameter.
- The printable name of a `VkResult` (`string_VkResult`) is a foreign function. It is a `resultName` parameter.
- PhysicalDevices.PhysicalDeviceSelector.Prefer: scores are unbounded integers. The source's `int` overflow on large biases is not modelled.
- PhysicalDevices.PhysicalDeviceSelector.Require: scores are unbounded integers. The same `int +=` overflow is not modelled.
- Release builds (NDEBUG) are not modelled: there `SATURN_CALL` throws `std::runtime_error("Failed to call Vulkan function")` instead of `UnsuccessfulResultException`.
- Instances.EngineVersionTriplesPatch: holds only for patches below 1366. Above that, the tripled patch overflows into the minor field, as `EngineVersionSpills` shows.
- Buffers.Buffer.Put: the result of `vkQueueSubmit` is ignored, as in the source. The upload buffer comes straight from the command pool, not from a dispatcher lease.
- Buffers.Buffer.Put: when `allocate`, `record` or `stop` throws inside the `noexcept` function, or `vkCreateFence` fails inside the `noexcept` `Fence` constructor (src/sync.cpp:31-43), the process terminates. The model reports this as `terminated`; after a recording or fence failure the upload buffer stays allocated and nothing is submitted.
- LegacySwapChains.CreateSwapChain: the older file's `VK_CALL` takes two arguments, while the macro takes three, and its `S_TRACE`/`S_ERROR` lines name no logger. No logging is modelled for it.
- Logging.Logger.Log: the console text is derived from the forwarded records, not kept as a separate field. Writing to `std::cout` is not modelled.
- Devices.QueueCreateInfos: the `unordered_map` iteration order is unspecified, so any order is allowed. `Requirements.ListMissing` treats the `unordered_set` the same way.

## Findings

| source | as written | input that shows it | evidently intended | confidence | as-written member | corrected member |
|---|---|---|---|---|---|---|
| src/physical_device.cpp:139-161 | `highscore` starts at `std::numeric_limits<int>::lowest()` and is replaced only on a strictly greater score, so `pDevice` stays uninitialised when every score is `INT_MIN`, and `*pDevice` is then read | one remaining device whose total score is `INT_MIN` | return a device with the highest score whenever any device remains | not executed | PhysicalDevices.SelectAsWrittenUninitialised | PhysicalDevices.PhysicalDeviceSelector.Select |
