# Vulkan renderer: a verified model

This project is a Dafny model of a small Vulkan renderer. The renderer draws one coloured quad, which is a mesh of six vertices. The model covers how the renderer:

- picks a physical device by its queue families, extensions and swapchain support;
- describes the logical device it asks for;
- negotiates the swapchain's format, presentation mode, extent, image count and image sharing;
- uploads the mesh into a host-visible, host-coherent vertex buffer;
- builds the swapchain's image views, framebuffers, command buffers, recordings and the two-slot frame ring of fences and semaphores;
- stops `Init` at the first step that throws, from instance creation to the synchronisation objects;
- draws frames;
- tears everything down in dependency order.

Native calls are not made. What the driver or the window system would answer becomes an argument, and the calls whose order matters are returned as values. Fences and semaphores are tracked as tokens that are `Unsignaled`, `Pending` (GPU work will signal them) or `Signaled`.

Modules, one per file:

- `Wrappers` (`wrappers.dfy`): `Option` and `Result`.
- `VkTypes` (`vk_types.dfy`): the Vulkan constants, records and `uint32` arithmetic the core uses.
- `Utilities` (`utilities.dfy`): the shared header. It holds the frame-ring size, the required device extensions, queue-family indices, swapchain details, swapchain images and the vertex layout.
- `Swapchain` (`swapchain.dfy`): the choices the renderer makes when it creates the swapchain.
- `DeviceSelection` (`device_selection.dfy`): the queue-family scan, the extension checks, device suitability, device selection and the logical-device request.
- `Mesh` (`mesh.dfy`): the memory-type search and the `Mesh` class that owns the vertex buffer.
- `FrameSync` (`frame_sync.dfy`): the frame ring and one step of drawing, as functions on values.
- `Teardown` (`teardown.dfy`): the objects the renderer owns, which object depends on which, and the order the renderer destroys them in.
- `VulkanRenderer` (`renderer.dfy`): the `VulkanRenderer` class. Its fields are the renderer's vectors and its current frame. Its methods are `Init`, the `Create*` steps, `RecordCommands`, `Draw` and `Cleanup`.

## Model

| member | source | states |
|---|---|---|
| VkTypes.ToUint32 | VulkanCourseApp/src/VulkanRenderer.cpp:1082-1083 | The `static_cast<uint32_t>` of an int is that int modulo 2^32. It is the identity on values already in range. |
| Utilities.QueueFamilyIndices.IsValid | VulkanCourseApp/inc/Utilities.h:28-31 | Indices are valid only when neither role holds the -1 "not found" marker. |
| Utilities.NoQueueFamiliesIsInvalid | VulkanCourseApp/inc/Utilities.h:22-32 | A freshly constructed QueueFamilyIndices holds -1 for both families and is not valid. |
| Swapchain.FirstPreferredFormat | VulkanCourseApp/src/VulkanRenderer.cpp:1039-1046 | The result is the index of the first 8-bit RGBA/BGRA sRGB-nonlinear entry, and no earlier entry is preferred. When there is none, no entry is preferred. |
| Swapchain.ChooseBestSurfaceFormat | VulkanCourseApp/src/VulkanRenderer.cpp:1030-1050 | A single UNDEFINED entry gives R8G8B8A8_UNORM/sRGB. Otherwise the result is the first preferred entry, or the first entry when none is preferred. The result is always the canonical pair or one of the reported formats. |
| Swapchain.SurfaceFormatExamples | VulkanCourseApp/src/VulkanRenderer.cpp:1030-1050 | Worked cases: the unrestricted list, a preferred first entry, a preferred second entry, and a list without a preferred entry. |
| Swapchain.ChooseBestPresentationMode | VulkanCourseApp/src/VulkanRenderer.cpp:1052-1065 | The result is MAILBOX exactly when MAILBOX is listed, and FIFO in every other case. |
| Swapchain.Clamp | VulkanCourseApp/src/VulkanRenderer.cpp:1086-1087 | `max(lo, min(hi, v))`: v inside the bounds is kept, a v below lo becomes lo, a v above hi becomes hi, and when lo > hi the result is lo. |
| Swapchain.ChooseSwapExtent | VulkanCourseApp/src/VulkanRenderer.cpp:1067-1091 | A current width other than 0xFFFFFFFF is taken as is. Otherwise each axis of the framebuffer size, cast to uint32, is clamped into the surface's minimum and maximum extent. |
| Swapchain.ExtentClampsEachAxis | VulkanCourseApp/src/VulkanRenderer.cpp:1067-1091 | Under the sentinel, a width below the minimum and a height inside the bounds clamp independently. |
| Swapchain.ChooseImageCount | VulkanCourseApp/src/VulkanRenderer.cpp:443-452 | The count is min+1, lowered to max when max is a real limit (max > 0). It never exceeds a real max and is at least min whenever min <= max. It wraps to 0 when min is 0xFFFFFFFF. |
| Swapchain.ImageCountExamples | VulkanCourseApp/src/VulkanRenderer.cpp:443-452 | Worked cases: (1,3) gives 2, (2,2) gives 2, and (5, unlimited) gives 6. |
| Swapchain.ChooseImageSharing | VulkanCourseApp/src/VulkanRenderer.cpp:469-489 | Sharing is CONCURRENT, listing the graphics family then the presentation family, exactly when the two families differ. Otherwise it is EXCLUSIVE with no index list. |
| Swapchain.MakeSwapchainCreateInfo | VulkanCourseApp/src/VulkanRenderer.cpp:430-489 | The create info uses a format the surface offers, or the canonical one when the surface accepts any. The mode is MAILBOX exactly when offered, and FIFO otherwise. The extent is the surface's own unless the surface leaves the size open, and then lies within the limits. The image count never exceeds a real maximum. Images are shared exactly when the two queue families differ. |
| DeviceSelection.GetQueueFamilies | VulkanCourseApp/src/VulkanRenderer.cpp:379-418 | The loop computes the same indices as the scan function `QueueFamiliesOf`. |
| DeviceSelection.ScanFromOutcome | VulkanCourseApp/src/VulkanRenderer.cpp:389-417 | From any scanned prefix, the scan ends in one of two ways. It stops at the first position where both roles have been found, with each index the last capable family up to there. Or it runs off the end, with each found role at its last capable family in the whole list and each missing role -1 exactly when no family offers it. |
| DeviceSelection.QueueFamiliesFound | VulkanCourseApp/src/VulkanRenderer.cpp:379-418 | The indices are valid exactly when some family has a graphics queue and some family supports presentation. Every recorded index points at a family with that capability. |
| DeviceSelection.ScanKeepsLastGraphicsFamily | VulkanCourseApp/src/VulkanRenderer.cpp:389-417 | For families [graphics, graphics, presentation] the scan yields (1, 2): the later graphics family overwrites the earlier one. |
| DeviceSelection.HasExtension | VulkanCourseApp/src/VulkanRenderer.cpp:338-345 | The result is true exactly when the name appears in the available list. |
| DeviceSelection.CheckInstanceExtensionSupport | VulkanCourseApp/src/VulkanRenderer.cpp:324-352 | The result is true exactly when every requested extension is available. |
| DeviceSelection.CheckDeviceExtensionSupport | VulkanCourseApp/src/VulkanRenderer.cpp:1155-1191 | The result is false for an empty list. Otherwise it is true exactly when every required device extension, that is VK_KHR_swapchain, is listed. |
| DeviceSelection.CheckDeviceSuitable | VulkanCourseApp/src/VulkanRenderer.cpp:354-377 | A device is suitable exactly when both queue roles are found, the swapchain extension is listed, and the surface reports at least one format and one presentation mode. |
| DeviceSelection.FirstSuitable | VulkanCourseApp/src/VulkanRenderer.cpp:974-981 | The result is the index of the first suitable device, and no earlier device is suitable. When there is none, no device is suitable. |
| DeviceSelection.GetPhysicalDevice | VulkanCourseApp/src/VulkanRenderer.cpp:959-982 | As written: an enumeration that reports no device fails with NoVulkanDevice. Otherwise the result is the first suitable device, or no device at all and no error. |
| DeviceSelection.UnsuitableDeviceNotRejected | VulkanCourseApp/src/VulkanRenderer.cpp:974-981 | A device with no queue families is the only one enumerated, yet the search finds no suitable device. GetPhysicalDevice then returns success with no device chosen. |
| DeviceSelection.SelectPhysicalDevice | VulkanCourseApp/src/VulkanRenderer.cpp:959-982 | Corrected: the result is the first suitable device, or NoSuitableDevice when none is suitable. It succeeds exactly when some device is suitable. |
| DeviceSelection.LogicalDeviceCreateInfo | VulkanCourseApp/src/VulkanRenderer.cpp:273-322 | One queue request per distinct family in {graphics, presentation}, in ascending order, each for a single queue. There is one request when the two coincide and two otherwise. The enabled extensions are the required device extensions. |
| Mesh.FirstFitFrom | VulkanCourseApp/src/Mesh.cpp:89-98 | The result is the first memory type at or after `from` that is allowed by the mask and has every requested property. When there is none, no type from there on fits. |
| Mesh.FindMemoryTypeIndex | VulkanCourseApp/src/Mesh.cpp:84-101 | The search succeeds exactly when some type fits, and then gives the smallest fitting index. Otherwise it returns MEMORY_MAP_FAILED and leaves the out-parameter unchanged. |
| Mesh.SearchSkipsIncoherentType | VulkanCourseApp/src/Mesh.cpp:84-101 | A disallowed type and a visible-but-incoherent type are skipped in favour of a later type that fits. |
| Mesh.FittingTypeIsHostAccessible | VulkanCourseApp/src/Mesh.cpp:54 | Any type that fits the vertex-buffer request is both host-visible and host-coherent. |
| Mesh.BufferCreationError | VulkanCourseApp/src/Mesh.cpp:39-71 | Vertex-buffer creation gets through exactly when the buffer is created, some allowed memory type is host-visible and host-coherent, and the allocation succeeds. It fails with BufferCreationFailed exactly when the buffer is not created. |
| Mesh.Mesh.constructor | VulkanCourseApp/src/Mesh.cpp:4-11 | The vertex count is the number of vertices given. |
| Mesh.Mesh.Empty | VulkanCourseApp/inc/Mesh.h:11 | A default mesh has no buffer and no memory. |
| Mesh.Mesh.GetVertexCount | VulkanCourseApp/src/Mesh.cpp:13-16 | The result is the stored vertex count. |
| Mesh.Mesh.GetVertexBuffer | VulkanCourseApp/src/Mesh.cpp:18-21 | The result is the stored buffer handle. |
| Mesh.Mesh.CreateVertexBuffer | VulkanCourseApp/src/Mesh.cpp:29-82 | It succeeds exactly when `BufferCreationError` reports nothing, and otherwise fails with the error that function names. Each failure branch issues only the calls made before the throw: buffer creation fails, no memory type fits, or allocation fails. On success the full call sequence is create (24 bytes per vertex, vertex usage, exclusive), allocate (the reported size, the found type), bind at offset 0, map, copy, unmap. Every allocation uses a fitting type, never the 0xFFFFFFFF placeholder. |
| Mesh.Mesh.DestroyVertexBuffer | VulkanCourseApp/src/Mesh.cpp:23-27 | The buffer is destroyed before the memory it is bound to. |
| Mesh.NewMesh | VulkanCourseApp/src/Mesh.cpp:4-11 | The constructor followed by CreateVertexBuffer: a fresh mesh with the vertex count. It succeeds exactly when `BufferCreationError` reports nothing. On success it holds the driver's buffer and memory, and the whole buffer was mapped. |
| FrameSync.InitialRingReady | VulkanCourseApp/src/VulkanRenderer.cpp:875-900 | The ring CreateSynchronization builds (fences signalled, semaphores unsignalled, slot 0) is ready to draw. |
| FrameSync.DrawFrame | VulkanCourseApp/src/VulkanRenderer.cpp:95-152 | A frame keeps the ring well formed, and its first call is the wait on the current slot's fence. |
| FrameSync.DrawTouchesOnlyCurrentSlot | VulkanCourseApp/src/VulkanRenderer.cpp:95-152 | A frame changes only the current slot's fence and semaphores. A blocked frame changes nothing. Once the wait returns, the slot's fence is no longer signalled. |
| FrameSync.DrawCallOrder | VulkanCourseApp/src/VulkanRenderer.cpp:95-152 | On a ready ring the frame issues wait, reset, acquire, submit and present in that order, all on the current slot. The submitted command buffer is the acquired image's. |
| FrameSync.DrawAdvancesOnlyOnPresent | VulkanCourseApp/src/VulkanRenderer.cpp:149-151 | The current slot moves to the next slot modulo MAX_FRAME_DRAWS exactly when the frame is presented, and stays put otherwise. |
| FrameSync.DrawKeepsReady | VulkanCourseApp/src/VulkanRenderer.cpp:95-152 | On a ready ring the fence wait returns. A frame whose submit and present succeed leaves the ring ready again, with only the slot's fence changed, now pending. |
| FrameSync.FailedSubmitStrandsFence | VulkanCourseApp/src/VulkanRenderer.cpp:128-132 | A failed submit leaves the slot's fence reset and unsignalled, so a later wait on it could never return. |
| FrameSync.DrawFrames | VulkanCourseApp/src/VulkanRenderer.cpp:95-152 | A run of successful frames from a ready ring leaves it ready, with every semaphore back in its starting state. |
| FrameSync.DrawFramesCountModulo | VulkanCourseApp/src/VulkanRenderer.cpp:149-151 | After k presented frames the ring is still ready and the slot is (start + k) mod 2. |
| FrameSync.FrameSlotIsFrameCountModulo | VulkanCourseApp/src/VulkanRenderer.cpp:149-151 | Starting from the initial ring, the slot after k frames is k mod 2. |
| Teardown.DependencyPointsLater | VulkanCourseApp/src/VulkanRenderer.cpp:154-188 | Every dependent object ranks strictly below what it depends on in the teardown order. |
| Teardown.CleanupCalls | VulkanCourseApp/src/VulkanRenderer.cpp:154-188 | Cleanup issues one device-idle wait and then only destroys, one per owned object: ten fixed objects, three per frame slot, one per framebuffer, one per image view, and the messenger under validation. The instance is destroyed last. |
| Teardown.SyncTeardownOrdered | VulkanCourseApp/src/VulkanRenderer.cpp:161-166 | The per-slot destruction of renderFinished, imageAvailable and the fence, over all slots, is strictly ordered. |
| Teardown.TeardownOrdered | VulkanCourseApp/src/VulkanRenderer.cpp:154-188 | The whole destruction sequence is strictly ordered by rank, so no object is destroyed twice. |
| Teardown.TeardownMember | VulkanCourseApp/src/VulkanRenderer.cpp:154-188 | An object is destroyed exactly when the renderer owns it: every framebuffer, every image view, every slot's three sync objects, and the debug messenger only with validation. |
| Teardown.OrderedRespectsDependencies | VulkanCourseApp/src/VulkanRenderer.cpp:154-188 | In an ordered destruction sequence, no object is destroyed before an object that depends on it. |
| Teardown.CleanupIsSafe | VulkanCourseApp/src/VulkanRenderer.cpp:154-188 | Cleanup first waits for the device to go idle. It then destroys each owned object exactly once and nothing else, never before an object created from it or bound to it. |
| VulkanRenderer.Resize | VulkanCourseApp/src/VulkanRenderer.cpp:877-879 | `std::vector::resize`: the new length, a kept prefix, and value-initialised padding. |
| VulkanRenderer.SetupFailure | VulkanCourseApp/src/VulkanRenderer.cpp:57-59 | The steps before device selection all succeed exactly when the instance is created with its layers and every required extension, the debug messenger is set up, and the surface is created. An instance failure comes first. |
| VulkanRenderer.RenderingFailure | VulkanCourseApp/src/VulkanRenderer.cpp:76-83 | The steps after the mesh all succeed exactly when the swapchain and every image view are created, the render pass and every pipeline step succeed, every framebuffer and the command pool are created, the command buffers are allocated, every recording begins and ends, and every sync object is created. A swapchain failure comes first. A failure here is never an earlier step's error. |
| VulkanRenderer.FirstFailure | VulkanCourseApp/src/VulkanRenderer.cpp:52-93 | Init's steps all succeed exactly when the early steps succeed, enumeration succeeds, some device is suitable, the logical device is created, the vertex buffer can be created, and the later steps succeed. An early failure is the first error. Otherwise the first error is a device-selection error exactly when selection fails, a logical-device error exactly when selection succeeds and vkCreateDevice fails, and a mesh error exactly when both succeed and buffer creation fails. |
| VulkanRenderer.VulkanRenderer.constructor | VulkanCourseApp/src/VulkanRenderer.cpp:35-50 | A new renderer holds no images, framebuffers, command buffers or sync objects, and has frame 0, an undefined image format and an empty mesh. |
| VulkanRenderer.VulkanRenderer.CreateSwapChain | VulkanCourseApp/src/VulkanRenderer.cpp:430-523 | Failure when vkCreateSwapchainKHR fails, with nothing changed. Otherwise the format and extent are the negotiated ones, and each swapchain image is appended with its view, in order, up to the first view that `CreateImageView` fails to create. The method succeeds exactly when every view is created. |
| VulkanRenderer.VulkanRenderer.CreateFramebuffers | VulkanCourseApp/src/VulkanRenderer.cpp:808-836 | The framebuffer vector is sized to the image count. Framebuffer i uses image view i, the swapchain extent and one layer. The method succeeds exactly when every creation succeeds, and stops at the first failure. |
| VulkanRenderer.VulkanRenderer.CreateCommandBuffers | VulkanCourseApp/src/VulkanRenderer.cpp:855-873 | One command buffer per framebuffer. The method succeeds exactly when the allocation does, and then the vector holds the allocated buffers. |
| VulkanRenderer.VulkanRenderer.CreateSynchronization | VulkanCourseApp/src/VulkanRenderer.cpp:875-900 | All three vectors have size MAX_FRAME_DRAWS. The method succeeds exactly when every creation succeeds, and then the ring is the initial ready ring. A failure on a fresh renderer leaves a ring that is not ready. |
| VulkanRenderer.VulkanRenderer.RecordingFor | VulkanCourseApp/src/VulkanRenderer.cpp:902-957 | Command buffer i is paired with framebuffer i. Its render pass covers the swapchain extent and draws the mesh's buffer from offset 0, one instance, with every vertex when the count fits in 32 bits. |
| VulkanRenderer.VulkanRenderer.RecordCommands | VulkanCourseApp/src/VulkanRenderer.cpp:902-957 | Command buffer i records one render pass over framebuffer i and the full extent, binds the mesh's buffer at offset 0 and draws its vertex count once. The method stops at the first failed begin or end. |
| VulkanRenderer.VulkanRenderer.Draw | VulkanCourseApp/src/VulkanRenderer.cpp:95-152 | The new ring and the calls are those of `DrawFrame` on the old ring. A presented frame counts one more frame. The renderer's invariants are kept, including that the slot is the presented-frame count mod 2. |
| VulkanRenderer.VulkanRenderer.Cleanup | VulkanCourseApp/src/VulkanRenderer.cpp:154-188 | The calls are exactly `CleanupCalls` for this renderer's framebuffer and image counts, so they meet `CleanupIsSafe`. |
| VulkanRenderer.VulkanRenderer.CreateRenderingResources | VulkanCourseApp/src/VulkanRenderer.cpp:76-83 | On a renderer without images, framebuffers, command buffers or sync objects, it succeeds exactly when `RenderingFailure` reports nothing, and otherwise fails with that error. On success the renderer is valid, with the initial frame ring and one image per swapchain image. The mesh is untouched. |
| VulkanRenderer.VulkanRenderer.Init | VulkanCourseApp/src/VulkanRenderer.cpp:52-93 | Init succeeds exactly when `FirstFailure` reports nothing, and otherwise fails with the first error that function names. On success the renderer is valid with a ready, initial frame ring and one image per swapchain image, the mesh has six vertices, and some device was suitable. |
| VulkanRenderer.DrawUsesImageBufferAndSlotObjects | VulkanCourseApp/src/VulkanRenderer.cpp:113-145 | The submit uses the acquired image's command buffer and the current slot's semaphores and fence. The present follows exactly when the submit succeeded; it presents the acquired image and waits on that slot's renderFinished. |
| VulkanRenderer.SharingMatchesQueueRequests | VulkanCourseApp/src/VulkanRenderer.cpp:469-489 | Swapchain images are CONCURRENT exactly when the logical device requests two queue families, and then they are shared by exactly those families. They are EXCLUSIVE exactly when it requests one. |

## Left out

- The contents of the create-info structures of `CreateInstance`, `SetupDebugMessenger` (`PopulateDebugMessengerCreateInfo`), `CreateSurface`, `CreateImageView`, `CreateRenderPass`, `CreateGraphicsPipeline`, `CreateShaderModule` and `CreateCommandPool`: they are fixed field values. Only whether each call succeeds is modelled, as an input of `InitDriver`, together with the instance-extension check. The render pass, the pipeline and the pool then take part only as teardown roles.
- `checkValidationLayerSupport` and the validation switch: `Validation.hpp` is not part of this model. The layer check's answer is an input (`InstanceCreation.layersAvailable`, true when validation is off), as is the messenger's creation (true when validation is off). Whether validation is enabled is an argument of `Cleanup`.
- `ReadFile`'s file contents: only whether each shader file opens is modelled (`PipelineCreation`).
- `GetSwapChainDetails`, `glfwGetRequiredInstanceExtensions` and the enumeration calls: the window system's and the driver's answers are inputs (`SwapChainDetails`, `PhysicalDevice`, `InitDriver`).
- Retrieving the queues after `vkCreateDevice`: the model stops at the device request, `LogicalDeviceCreateInfo`.
- GPU execution: fences and semaphores are tokens. `Pending` stands for work that the GPU will finish later, so timing and completion order are not modelled.
- VulkanRenderer.VulkanRenderer.Draw: the results of `vkWaitForFences`, `vkResetFences` and `vkAcquireNextImageKHR` are ignored, as in the source. The acquired image index is an argument.
- The bytes copied by `memcpy`: `CopyVertices` records only the byte count.
- The results of `vkBindBufferMemory` and `vkMapMemory`, which the source ignores.
- Mesh.Mesh.CreateVertexBuffer: the `VkDeviceSize` product `sizeof(Vertex) * count` is unbounded here; its 64-bit overflow is not modelled.
- The `vertices_` field, the address of the caller's vertex vector that the mesh keeps: nothing reads it after construction.
- Floating point: vertex components are IEEE-754 bit patterns, with no arithmetic on them.
- `main.cpp`'s window loop and `glfwWindowShouldClose`: `Draw` models one frame, and `DrawFrames` models a run of frames.
- The destructor, which is empty.
- VulkanRenderer.VulkanRenderer.Init: it requires a freshly constructed renderer, as `main.cpp` gives it. It returns a `Result` instead of printing the message and returning `EXIT_FAILURE`.
- VulkanRenderer.VulkanRenderer.Cleanup: it requires the invariant that a successful `Init` establishes, because `main.cpp:35-47` reaches `Cleanup` only after `Init` succeeded.
- VulkanRenderer.VulkanRenderer.Init: it uses the corrected `SelectPhysicalDevice`, not the as-written `GetPhysicalDevice` (see Findings).

Two places where the code does something other than the obvious reading; the model follows the code:

- The queue-family scan keeps the last capable index before it stops, not the first. `ScanKeepsLastGraphicsFamily` shows this.
- The image count is `minImageCount + 1` in `uint32_t` arithmetic, with no `max` against `minImageCount`, so it wraps to 0 when the minimum is 0xFFFFFFFF.

## Findings

| source | as written | input that shows it | evidently intended | confidence | as-written member | corrected member |
|---|---|---|---|---|---|---|
| VulkanCourseApp/src/VulkanRenderer.cpp:959-982 | When no enumerated device is suitable, the loop ends without a throw and the physical device stays null. `CreateLogicalDevice` then runs on a null device. | One enumerated device with no queue families. | Throw "no suitable device" and make `Init` fail. | not executed | DeviceSelection.UnsuitableDeviceNotRejected | DeviceSelection.SelectPhysicalDevice |
