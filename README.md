# Frame-presentation bookkeeping of a Vulkan client, in Dafny

This project models the part of a small Vulkan game client that decides
how frames reach the screen, and proves properties of that model:

- **Swap-chain negotiation** (`SwapChains`, `swap_chain.dfy`). The choice
  of surface format, present mode and extent, the requested image count
  and the sharing mode of a new chain.
- **Swap-chain synchronisation** (`SwapChains.SwapChain`). Per-slot fences
  and semaphores, the `images_in_flight` table and the round-robin slot
  counter `current_frame`, as `acquireNextImage` and `submitCommandBuffers`
  update them. An event log records the synchronisation calls in the order
  they are issued.
- **The frame state machine** (`Renderers.Renderer`, `renderer.dfy`). The
  `is_frame_started` guard, the renderer's own slot counter
  `current_frame_index`, the result dispatch of `beginFrame` and
  `endFrame`, and the rebuild procedure `recreateSwapChain`. The rebuild
  waits for a drawable window, checks that the formats are compatible, and
  reallocates the command buffers when it has to.
- **Resize notification** (`Windows.Window`, `window.dfy`). The size and
  pending-resize flag that the window system's callback sets and the
  renderer clears.
- **Object ids** (`GameObjects`, `game_object.dfy`). The hidden static
  counter of `createGameObject`, made an explicit `IdCounter` object.

`vulkan_types.dfy` (`VulkanTypes`) holds the abstract values that stand in
for Vulkan and GLFW objects. It defines unsigned and signed 32-bit
integers, extents, format codes, present modes, result codes, surface
capabilities, queue families, command-buffer handles and the error
outcomes.

Every call into Vulkan or GLFW is replaced by a parameter that carries its
answer:

- `AcquireReply` is the result and image index of `vkAcquireNextImageKHR`.
- `recordingOk` says whether `vkBeginCommandBuffer` or `vkEndCommandBuffer`
  succeeded.
- `submitResult` and `presentResult` are the results of `vkQueueSubmit`
  and `vkQueuePresentKHR`.
- `DeviceInfo` carries the surface support query, the queue families, the
  depth format the device picks, and the image count the driver grants.
- A `seq<WindowEvent>` is the events that successive `glfwWaitEvents` calls
  deliver.

A thrown `std::runtime_error` becomes a `Failure`/`Fail` outcome naming
its message. A failed `assert` becomes a precondition.

Fences and semaphores are modelled as what the CPU knows of them. A fence
is signalled or not. A semaphore has a signal pending or not. Waiting on a
fence makes it known-signalled; that is, the GPU work it guards has
finished.

The renderer keeps a ghost table `pendingFence`. For each command-buffer
slot it records which chain fence guards the slot's last submission. Its
invariant `Valid()` ties the renderer's counter to the chain's counter
through the predicate `Aligned`. The two counters are kept separate: a
rebuild resets the chain's `current_frame` to 0 but leaves
`current_frame_index` as it is. `CountersDivergeAfterRebuild` shows such a
run.

From this bookkeeping, `BeginFrame` proves that the command buffer it
hands out is not in use by the GPU. That holds even though the renderer
and the chain count their slots independently.

The reallocation test of `recreateSwapChain` (src/Renderer.h:221) might be
expected to compare the new chain's image count with the old chain's. It
compares it with `command_buffers.size()` instead, which is always
`MAX_FRAMES_IN_FLIGHT`. `RecreateSwapChain` states the comparison as
written.

The polling loop of `recreateSwapChain` reads the extent before it waits
for an event. Two things follow, and `WaitUsesExtentReadBeforeLastEvent`
exhibits both:

- After the window is restored, one more event is needed before the loop
  ends.
- The extent the loop settles on may be older than the window's size at
  that moment.

## Model

| member | source | states |
|---|---|---|
| SwapChains.FirstPreferred | src/SwapChain.h:459-464 | the scan finds the first entry with format B8G8R8A8_SRGB and colour space SRGB_NONLINEAR, and finds none exactly when no entry qualifies |
| SwapChains.ChooseSwapSurfaceFormat | src/SwapChain.h:457-467 | the result is a member of the non-empty list; it is the preferred format when the list holds it, otherwise the list's first entry, and no entry before it is preferred |
| SwapChains.ChooseSwapPresentMode | src/SwapChain.h:469-488 | the result is IMMEDIATE exactly when the list holds IMMEDIATE, otherwise FIFO; MAILBOX is never chosen |
| SwapChains.ClampDimension | src/SwapChain.h:496-501 | max(lo, min(hi, x)) is at least lo and at most hi when lo <= hi; it is x when x lies in range, lo when x is below lo, hi when x is above a non-empty range, and lo whenever hi < lo |
| SwapChains.ChooseSwapExtent | src/SwapChain.h:490-505 | the surface's current extent unless its width is UINT32_MAX; then each dimension of the window extent is clamped to the surface limits |
| SwapChains.ChooseSwapExtentBounds | src/SwapChain.h:494-504 | a clamped extent is never below the minimum, lies within the limits when they form a range, and equals the window extent when that already fits |
| SwapChains.RequestedImageCount | src/SwapChain.h:218-222 | minImageCount + 1, lowered to maxImageCount only when that is positive and exceeded; a maximum of 0 means no limit; the addition wraps at 2^32 |
| SwapChains.ChooseSharing | src/SwapChain.h:235-246 | CONCURRENT with the two family indices exactly when the graphics and present families differ, otherwise EXCLUSIVE with none |
| SwapChains.CreateInfo | src/SwapChain.h:210-254 | the create-info uses a surface format the device offers, presents in IMMEDIATE or FIFO mode, and names an old chain exactly when there is a previous one |
| SwapChains.SignalledFences | src/SwapChain.h:442-444 | the fences of a new chain are all created signalled |
| SwapChains.AfterImageWait | src/SwapChain.h:147-149 | waiting on the fence that guards an image makes exactly that fence known-signalled, and no wait happens when nothing guards the image |
| SwapChains.ImageWaitEvents | src/SwapChain.h:147-149 | a wait is issued exactly when the image is guarded by a fence, and it is one wait on that guarding fence |
| SwapChains.SwapChain.constructor | src/SwapChain.h:21-33 | a new chain is built from the negotiated create-info, the device's depth format and the granted image count; it has one depth attachment and one framebuffer per image, signalled fences, no pending semaphore, an empty images_in_flight table and slot 0 current |
| SwapChains.SwapChain.CreateDepthResources | src/SwapChain.h:294-342 | one depth attachment per image, in the depth format and the chain's extent |
| SwapChains.SwapChain.CreateFrameBuffers | src/SwapChain.h:406-430 | framebuffer i binds image i, for every image, at the chain's extent |
| SwapChains.SwapChain.CreateSyncObjects | src/SwapChain.h:432-455 | MAX_FRAMES_IN_FLIGHT semaphores of each kind and fences, all fences signalled; one images_in_flight entry per image, all empty |
| SwapChains.SwapChain.GetFrameBuffer | src/SwapChain.h:71-74 | the framebuffer of image index, at the chain's extent |
| SwapChains.SwapChain.CompareSwapFormats | src/SwapChain.h:193-197 | true exactly when both the depth format and the image format agree |
| SwapChains.CompareSwapFormatsIsEquivalence | src/SwapChain.h:193-197 | the comparison is reflexive, symmetric and transitive |
| SwapChains.SwapChain.AcquireNextImage | src/SwapChain.h:125-143 | waits on the current slot's fence only, then acquires with that slot's semaphore (which must have no pending signal); the semaphore gets a pending signal exactly when an image was acquired |
| SwapChains.SwapChain.SubmitCommandBuffers | src/SwapChain.h:145-191 | waits on the image's guarding fence if there is one, makes the current slot's fence guard that image and no other entry changes, resets that fence before the submission, and advances the slot by one modulo 2 whatever the present result; a failed submission throws before the slot advances |
| VulkanTypes.ToUint32 | src/Window.h:37 | the unsigned cast keeps a non-negative value and adds 2^32 to a negative one |
| Windows.ExtentOf | src/Window.h:35-38 | the stored signed size cast to unsigned; it is zero exactly when the stored size is zero |
| Windows.Window.constructor | src/Window.h:12-15 | a new window has the given size and no pending resize |
| Windows.Window.GetExtent | src/Window.h:35-38 | the stored size; each non-negative dimension is kept as is and each negative one wraps as the unsigned cast does |
| Windows.Window.WasWindowResized | src/Window.h:40-43 | the pending-resize flag, with no change of state |
| Windows.Window.ResetWindowResizeFlag | src/Window.h:45-48 | clears the flag and keeps the size |
| Windows.Window.FrameBufferResizeCallback | src/Window.h:69-76 | records the reported size and raises the flag |
| Windows.ResizeNotificationScenario | src/Window.h:40-76 | a run of the notification protocol: the initial size and no pending resize, a resize seen with the last reported size, and clearing that keeps the size |
| Renderers.WaitLoop | src/Renderer.h:203-206 | reference definition of the polling loop from the k-th event on: stop on a non-zero extent, otherwise read the extent and deliver the next event; none when the events run out first |
| Renderers.WaitForDrawableExtent | src/Renderer.h:201-206 | reference definition of the whole wait, starting from the window's current extent |
| Renderers.WaitLoopEndsNonZero | src/Renderer.h:201-206 | whatever the events, a wait that ends settles on an extent with both dimensions non-zero, having consumed no more events than were delivered |
| Renderers.WaitEndsNonZero | src/Renderer.h:201-206 | the whole wait, begun with the window's extent, only ends on a drawable extent |
| Renderers.WaitReturnsAtOnce | src/Renderer.h:201-206 | a window that is not minimised is used at once, without consuming an event |
| Renderers.WaitUsesExtentReadBeforeLastEvent | src/Renderer.h:203-206 | the extent is read before each wait, so a restored window needs one more event and the chosen extent can be stale |
| Renderers.WaitForNonZeroExtent | src/Renderer.h:201-206 | the polling loop returns the extent and window state that the wait over the event stream specifies, and that extent is non-zero |
| Renderers.NextFrameIndex | src/Renderer.h:97 | the next slot index is a valid slot, differs from the current one, and the slot after it is the current one again |
| Renderers.RebuildWanted | src/Renderer.h:89 | definition of the rebuild condition of endFrame: an out-of-date or suboptimal present, or a pending resize |
| Renderers.FrameIndexCycles | src/Renderer.h:96-97 | from 0 the frame index after n frames is n mod 2; consecutive frames use different slots and every second frame reuses one |
| Renderers.Allocation | src/Renderer.h:171-185 | one command buffer per frame slot, MAX_FRAMES_IN_FLIGHT in all |
| Renderers.AlignedCurrentSlot | src/Renderer.h:34-39 | while the counters are aligned, the fence recorded for the renderer's current slot is the chain's current fence |
| Renderers.AlignedAfterSubmit | src/Renderer.h:87-97 | recording a submission under the chain's current fence and advancing both counters keeps them aligned |
| Renderers.Renderer.constructor | src/Renderer.h:14-18 | waits for a drawable extent, builds the first chain with no old chain, and allocates the command buffers; no frame is open and the slot index is 0 |
| Renderers.Renderer.IsFrameInProgress | src/Renderer.h:29-32 | true exactly while a frame is open |
| Renderers.Renderer.GetCurrentCommandBuffer | src/Renderer.h:34-39 | only while a frame is open: the current slot's buffer from the latest allocation |
| Renderers.Renderer.GetFrameIndex | src/Renderer.h:155-160 | only while a frame is open: the slot of the current command buffer |
| Renderers.Renderer.GetSwapChainRenderPass | src/Renderer.h:41-44 | the chain's render pass, over its image format and depth format |
| Renderers.Renderer.CreateCommandBuffers | src/Renderer.h:171-185 | exactly MAX_FRAMES_IN_FLIGHT buffers of a new allocation, none of them a buffer of an earlier allocation |
| Renderers.Renderer.RecreateSwapChain | src/Renderer.h:199-226 | builds a chain only from a non-zero extent, after the device is idle and chained to the old one; a format change is an error that leaves the new chain installed; buffers are reallocated exactly when the new image count differs from the number of command buffers |
| Renderers.Renderer.BeginFrame | src/Renderer.h:46-75 | only when no frame is open; every result first waits on the current slot's fence only, which becomes signalled while every other fence keeps its state, and logs that wait and the acquire; an out-of-date chain is rebuilt from the device and the waited extent (with the command buffers reallocated exactly as the rebuild does), returns no buffer and leaves the frame closed and the slot unchanged; a success or suboptimal acquire opens the frame on the current slot's buffer, which is no longer in use by the GPU, and marks the slot's image-available semaphore pending; any other result is an error and leaves the semaphores unchanged |
| Renderers.Renderer.EndFrame | src/Renderer.h:77-98 | only while a frame is open; submits the current buffer for the acquired image, which then waits on the slot's fence (after any earlier fence guarding it is waited on) and resets that fence, also when the submission fails, which leaves the slot unchanged; out-of-date, suboptimal or a pending resize clear the flag and rebuild, any other non-success present is an error; on success the frame closes and the slot advances by one modulo 2 |
| Renderers.Renderer.FinishFrame | src/Renderer.h:89-97 | after the submission: rebuild on out-of-date, suboptimal or resize, fail on another non-success result, and otherwise close the frame and advance the slot |
| Renderers.Renderer.BeginSwapChainRenderPass | src/Renderer.h:100-141 | only on the open frame's own buffer: begins the chain's render pass on the acquired image's framebuffer, and sets the viewport and scissor, all over the full extent |
| Renderers.Renderer.EndSwapChainRenderPass | src/Renderer.h:143-153 | only on the open frame's own buffer: ends the render pass |
| Renderers.CountersDivergeAfterRebuild | src/Renderer.h:168 | after a rebuild the renderer's slot index and the chain's slot counter differ, and the next frame records into the other slot of a new allocation |
| GameObjects.IdOf | src/GameObject.h:48-50 | the k-th id handed out is k, until the unsigned counter wraps |
| GameObjects.IdsDistinctBeforeWrap | src/GameObject.h:33 | the ids of the first 2^32 calls differ pairwise |
| GameObjects.IdsRepeatAfterWrap | src/GameObject.h:33 | call k + 2^32 gets the id of call k for every k; in particular call 2^32 gets id 0 again |
| GameObjects.GameObject.constructor | src/GameObject.h:61-64 | the object carries the id it is given |
| GameObjects.GameObject.GetId | src/GameObject.h:53-56 | the id fixed when the object was made |
| GameObjects.IdCounter.constructor | src/GameObject.h:48 | the counter starts at 0 |
| GameObjects.IdCounter.CreateGameObject | src/GameObject.h:46-51 | a new object carries the current id, and the counter is incremented afterwards with 32-bit wrap |
| GameObjects.IssuedIdsDistinct | src/GameObject.h:46-51 | as long as at most 2^32 objects were made, no two share an id |
| GameObjects.CreateGameObjectsScenario | src/GameObject.h:46-51 | the first object gets id 0 and the second id 1 |

## Left out

- Creating and destroying Vulkan objects is left out: swapchain, image
  views, depth images and their memory, render pass, framebuffers,
  semaphores, fences and command buffers. Creation is assumed to succeed,
  so the "failed to create ..." and "failed to allocate command buffers"
  errors are not modelled.
- Destructors and teardown order are left out, and so is
  `freeCommandBuffers`. A new allocation replaces the old buffers.
- Real concurrency between CPU and GPU is left out. A fence wait returns
  at once and leaves the fence known-signalled. The model does not
  represent when the GPU finishes work.
- `vkDeviceWaitIdle` is modelled only as the end of all pending work.
- The render-finished semaphores are sized and created in the model, but
  their later state is not tracked.
- `glfwWaitEvents` is a finite stream of events. An operation that may
  rebuild the chain requires that the stream lets the polling loop end.
  In the source, the loop would block until the window system delivers
  more events.
- The depth format is part of `DeviceInfo`, restricted to the three
  candidates `findDepthFormat` offers (D32_SFLOAT, D32_SFLOAT_S8_UINT,
  D24_UNORM_S8_UINT). Which one the device picks is decided by
  `findSupportedFormat`, and Device.h is not part of this model. The same holds for `getSwapChainSupport` and
  `findPhysicalQueueFamilies`.
- `createImageViews` is left out, because a view adds nothing beyond its
  image. A framebuffer is identified by its image index and extent.
- `createRenderPass` reduces to the pair of attachment formats. The
  attachment and subpass settings are fixed configuration. The same
  applies to `preTransform`, `compositeAlpha`, `clipped`, the image usage
  and the array layer count in `createSwapChain`.
- Floating-point values are left out: the clear colours, the viewport's
  depth range, `extentAspectRatio`, `Transform2dComponent::mat2` and the
  rotation update.
- The render system, the pipeline, models and the top-level application
  loop are not part of this model. So are `shouldClose` and
  `createWindowSurface`, which are direct GLFW calls.
- Renderers.Renderer.BeginFrame: does not model the image index that
  `vkAcquireNextImageKHR` leaves behind on a failed acquire. The model
  keeps the previous value, which no later operation reads before the
  next successful acquire.
- Renderers.Renderer.constructor: does not go through the separate
  missing-chain branch of `recreateSwapChain`. The constructor performs
  that branch itself, then allocates the command buffers as the source's
  constructor does.
- The console output of `chooseSwapPresentMode` is left out.
- GameObjects.GameObject: the defaulted move constructor and move
  assignment are not modelled. A move assignment overwrites the target's
  id with the source's; the model only has objects made by
  `createGameObject`, whose ids never change.
- Renderers.Renderer.constructor: `current_image_index` is left
  uninitialised by the source until the first successful acquire. The
  model starts it at 0; no operation reads it before an acquire sets it.
- `VkPresentModeKHR` and `VkResult` codes other than the named ones are
  kept by value, and their types exclude the codes of the named
  constructors.
