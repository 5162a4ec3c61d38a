/** The frame state machine: begin a frame (acquire an image, open the slot's
    command buffer), record the render pass, end the frame (submit, present),
    and rebuild the swap chain when the surface goes stale or the window is
    resized. Usage errors (the source's asserts) are preconditions; thrown
    errors are `Failure`/`Fail` outcomes after which the session ends. */
module Renderers {
  import opened VulkanTypes
  import opened SwapChains
  import opened Windows

  // ---------------------------------------------------------------------
  // Waiting for a drawable extent (the polling loop of recreateSwapChain)
  // ---------------------------------------------------------------------

  /** What one glfwWaitEvents call delivers: a framebuffer-size callback, or
      some other event that leaves the window state alone. */
  datatype WindowEvent = FramebufferResized(width: int32, height: int32) | OtherEvent

  /** The window's resize-notification state: size and pending-resize flag. */
  datatype WindowState = WindowState(width: int32, height: int32, resized: bool)

  /** How the wait ends: the extent it settled on, the window state it
      leaves, and how many events it consumed. */
  datatype WaitOutcome = WaitOutcome(extent: Extent, window: WindowState, consumed: nat)

  function StateOf(window: Window): WindowState
    reads window
  {
    WindowState(window.width, window.height, window.frameBufferResize)
  }

  /** The effect of one event on the window state. */
  function Deliver(w: WindowState, e: WindowEvent): WindowState {
    match e
    case FramebufferResized(width, height) => WindowState(width, height, true)
    case OtherEvent => w
  }

  /** The loop `while (extent is zero) { extent = getExtent(); glfwWaitEvents(); }`
      from event `k` on; `None` when the stream ends while the loop would
      still block in glfwWaitEvents. */
  function WaitLoop(w: WindowState, extent: Extent, events: seq<WindowEvent>, k: nat): Option<WaitOutcome>
    requires k <= |events|
    decreases |events| - k
  {
    if extent.width != 0 && extent.height != 0 then Some(WaitOutcome(extent, w, k))
    else if k == |events| then None
    else WaitLoop(Deliver(w, events[k]), ExtentOf(w.width, w.height), events, k + 1)
  }

  /** The whole wait, starting with `extent = window.getExtent()`. */
  function WaitForDrawableExtent(w: WindowState, events: seq<WindowEvent>): Option<WaitOutcome> {
    WaitLoop(w, ExtentOf(w.width, w.height), events, 0)
  }

  /** Whatever the events, a wait that ends settles on an extent that is
      non-zero in both dimensions, so no zero-sized chain is ever built. */
  lemma {:induction false} WaitLoopEndsNonZero(w: WindowState, extent: Extent, events: seq<WindowEvent>, k: nat)
    requires k <= |events|
    requires WaitLoop(w, extent, events, k).Some?
    ensures var o := WaitLoop(w, extent, events, k).value;
      o.extent.width != 0 && o.extent.height != 0 && k <= o.consumed <= |events|
    decreases |events| - k
  {
    if extent.width == 0 || extent.height == 0 {
      WaitLoopEndsNonZero(Deliver(w, events[k]), ExtentOf(w.width, w.height), events, k + 1);
    }
  }

  lemma WaitEndsNonZero(w: WindowState, events: seq<WindowEvent>)
    requires WaitForDrawableExtent(w, events).Some?
    ensures var o := WaitForDrawableExtent(w, events).value;
      o.extent.width != 0 && o.extent.height != 0 && o.consumed <= |events|
  {
    WaitLoopEndsNonZero(w, ExtentOf(w.width, w.height), events, 0);
  }

  /** A window that is not minimised is used at once: no event is consumed
      and the window state is untouched. */
  lemma WaitReturnsAtOnce(w: WindowState, events: seq<WindowEvent>)
    requires w.width != 0 && w.height != 0
    ensures WaitForDrawableExtent(w, events) == Some(WaitOutcome(ExtentOf(w.width, w.height), w, 0))
  {
  }

  /** The loop reads the extent before it waits, so after the window is
      restored one more event is needed, and the extent it settles on can be
      older than the window's current size. */
  lemma WaitUsesExtentReadBeforeLastEvent()
    ensures WaitForDrawableExtent(WindowState(0, 0, false), [FramebufferResized(800, 600)]).None?
    ensures WaitForDrawableExtent(WindowState(0, 0, false), [FramebufferResized(800, 600), OtherEvent])
      == Some(WaitOutcome(Extent(800, 600), WindowState(800, 600, true), 2))
    ensures WaitForDrawableExtent(WindowState(0, 0, false), [FramebufferResized(800, 600), FramebufferResized(0, 0)])
      == Some(WaitOutcome(Extent(800, 600), WindowState(0, 0, true), 2))
  {
  }

  /** The polling loop itself, run against the window object. */
  method WaitForNonZeroExtent(window: Window, events: seq<WindowEvent>) returns (extent: Extent)
    requires WaitForDrawableExtent(StateOf(window), events).Some?
    modifies window`width, window`height, window`frameBufferResize
    ensures var o := WaitForDrawableExtent(old(StateOf(window)), events).value;
      extent == o.extent && StateOf(window) == o.window
    ensures extent.width != 0 && extent.height != 0
  {
    ghost var goal := WaitForDrawableExtent(StateOf(window), events);
    WaitEndsNonZero(StateOf(window), events);
    extent := window.GetExtent();
    var k := 0;
    while extent.width == 0 || extent.height == 0
      invariant k <= |events|
      invariant WaitLoop(StateOf(window), extent, events, k) == goal
      decreases |events| - k
    {
      extent := window.GetExtent();
      // glfwWaitEvents: the next event reaches the window's callback.
      if events[k].FramebufferResized? {
        window.FrameBufferResizeCallback(events[k].width, events[k].height);
      }
      k := k + 1;
    }
  }

  // ---------------------------------------------------------------------
  // Frame slots
  // ---------------------------------------------------------------------

  /** `(current_frame_index + 1) % SwapChain::MAX_FRAMES_IN_FLIGHT`. */
  function NextFrameIndex(i: nat): (next: nat)
    ensures next < MAX_FRAMES_IN_FLIGHT
    ensures i < MAX_FRAMES_IN_FLIGHT ==> next != i && (next + 1) % MAX_FRAMES_IN_FLIGHT == i
  {
    (i + 1) % MAX_FRAMES_IN_FLIGHT
  }

  /** The frame index after `n` frames that ended successfully. */
  function FrameIndexAfter(start: nat, n: nat): nat {
    if n == 0 then start else NextFrameIndex(FrameIndexAfter(start, n - 1))
  }

  /** From the initial index 0 the frame index runs 0, 1, 0, 1, ...: after
      `n` frames it is `n mod 2`, consecutive frames use different slots and
      every second frame reuses a slot. */
  lemma {:induction false} FrameIndexCycles(n: nat)
    ensures FrameIndexAfter(0, n) == n % MAX_FRAMES_IN_FLIGHT
    ensures FrameIndexAfter(0, n + 1) != FrameIndexAfter(0, n)
    ensures FrameIndexAfter(0, n + 2) == FrameIndexAfter(0, n)
  {
    if n > 0 {
      FrameIndexCycles(n - 1);
    }
  }

  /** The command buffers of allocation number `a`, one per frame slot. */
  function Allocation(a: nat): (buffers: seq<CommandBuffer>)
    ensures |buffers| == MAX_FRAMES_IN_FLIGHT
    ensures forall j :: 0 <= j < MAX_FRAMES_IN_FLIGHT ==> buffers[j] == CommandBuffer(a, j)
  {
    seq(MAX_FRAMES_IN_FLIGHT, j requires 0 <= j => CommandBuffer(a, j))
  }

  /** The slot counters of the renderer (`frame`) and of the chain
      (`chainFrame`) advance together, so every recorded fence slot keeps
      its distance to the command-buffer slot that it guards. */
  ghost predicate Aligned(pendingFence: seq<Option<nat>>, frame: nat, chainFrame: nat)
    requires |pendingFence| == MAX_FRAMES_IN_FLIGHT
  {
    forall j :: 0 <= j < MAX_FRAMES_IN_FLIGHT && pendingFence[j].Some? ==>
      (pendingFence[j].value + frame) % MAX_FRAMES_IN_FLIGHT == (j + chainFrame) % MAX_FRAMES_IN_FLIGHT
  }

  /** While the counters are aligned, the fence recorded for the renderer's
      current slot is the chain's current slot fence. */
  lemma AlignedCurrentSlot(pendingFence: seq<Option<nat>>, frame: nat, chainFrame: nat)
    requires |pendingFence| == MAX_FRAMES_IN_FLIGHT && frame < MAX_FRAMES_IN_FLIGHT && chainFrame < MAX_FRAMES_IN_FLIGHT
    requires pendingFence[frame].Some? && pendingFence[frame].value < MAX_FRAMES_IN_FLIGHT
    requires Aligned(pendingFence, frame, chainFrame)
    ensures pendingFence[frame].value == chainFrame
  {
  }

  /** Recording the submission of the current slot under the chain's current
      fence, then advancing both counters, keeps them aligned. */
  lemma AlignedAfterSubmit(pendingFence: seq<Option<nat>>, frame: nat, chainFrame: nat)
    requires |pendingFence| == MAX_FRAMES_IN_FLIGHT && frame < MAX_FRAMES_IN_FLIGHT && chainFrame < MAX_FRAMES_IN_FLIGHT
    requires Aligned(pendingFence, frame, chainFrame)
    ensures Aligned(pendingFence[frame := Some(chainFrame)], NextFrameIndex(frame), (chainFrame + 1) % MAX_FRAMES_IN_FLIGHT)
  {
  }

  // ---------------------------------------------------------------------
  // Recorded render-pass commands
  // ---------------------------------------------------------------------

  datatype Rect = Rect(x: int, y: int, extent: Extent)

  /** The area covering the whole of an extent, from the origin. */
  function FullArea(e: Extent): Rect {
    Rect(0, 0, e)
  }

  /** The vkCmd* calls the render-pass operations record. The clear values
      and the viewport's depth range are floating point and not modelled. */
  datatype Command =
    | BeginRenderPass(pass: RenderPass, framebuffer: Framebuffer, renderArea: Rect)
    | SetViewport(area: Rect)
    | SetScissor(area: Rect)
    | EndRenderPass

  // ---------------------------------------------------------------------
  // The renderer
  // ---------------------------------------------------------------------

  /** A present result or resize that makes endFrame rebuild the chain. */
  predicate RebuildWanted(presentResult: VkResult, resized: bool) {
    presentResult == OutOfDate || presentResult == Suboptimal || resized
  }

  class Renderer {
    const window: Window
    var swapChain: SwapChain
    var commandBuffers: seq<CommandBuffer>
    /** Number of command-buffer allocations so far; the current buffers
        come from the last one. */
    var allocations: nat
    var currentImageIndex: nat
    var currentFrameIndex: nat
    var isFrameStarted: bool
    /** For each frame slot, the swap-chain fence that guards the last
        submission of its command buffer, while that submission may still
        be running on the GPU. */
    ghost var pendingFence: seq<Option<nat>>

    /** The structural invariant, which also holds in the middle of endFrame. */
    ghost predicate Core()
      reads this, swapChain
    {
      && swapChain.Valid()
      && allocations > 0
      && commandBuffers == Allocation(allocations - 1)
      && currentFrameIndex < MAX_FRAMES_IN_FLIGHT
      && |pendingFence| == MAX_FRAMES_IN_FLIGHT
      && (forall j :: 0 <= j < MAX_FRAMES_IN_FLIGHT && pendingFence[j].Some? ==>
            pendingFence[j].value < MAX_FRAMES_IN_FLIGHT)
    }

    /** The invariant between operations: the slot counters of the renderer
        and of the chain keep a fixed distance while fences guard work, the
        current slot's image-available semaphore has a signal pending exactly
        while a frame is open, and an open frame has an image of the chain. */
    ghost predicate Valid()
      reads this, swapChain
    {
      && Core()
      && (isFrameStarted ==> currentImageIndex < swapChain.imageCount)
      && (forall s :: 0 <= s < MAX_FRAMES_IN_FLIGHT ==>
            swapChain.imageAvailableSemaphores[s].signalPending == (isFrameStarted && s == swapChain.currentFrame))
      && Aligned(pendingFence, currentFrameIndex, swapChain.currentFrame)
    }

    /** Whether the command buffer of slot `j` may still be in use by the GPU:
        it was submitted and its fence has not been seen signalled since. */
    ghost predicate InUse(j: nat)
      reads this, swapChain
      requires Core() && j < MAX_FRAMES_IN_FLIGHT
    {
      pendingFence[j].Some? && !swapChain.inFlightFences[pendingFence[j].value].signalled
    }

    ghost predicate NoPendingWork()
      reads this
    {
      forall j :: 0 <= j < |pendingFence| ==> pendingFence[j].None?
    }

    /** What the device and the window events must allow for a rebuild to
        return: a surface that reports formats, and an event stream on which
        the polling loop ends. */
    ghost predicate CanRebuild(device: DeviceInfo, events: seq<WindowEvent>)
      reads window
    {
      |device.support.formats| > 0 && WaitForDrawableExtent(StateOf(window), events).Some?
    }

    /** The renderer: waits for a drawable extent, builds the first chain
        (the branch of recreateSwapChain for a missing chain) and allocates
        the command buffers. */
    constructor (window: Window, device: DeviceInfo, events: seq<WindowEvent>)
      requires |device.support.formats| > 0
      requires WaitForDrawableExtent(StateOf(window), events).Some?
      modifies window`width, window`height, window`frameBufferResize
      ensures this.window == window
      ensures Valid() && NoPendingWork()
      ensures var o := WaitForDrawableExtent(old(StateOf(window)), events).value;
        StateOf(window) == o.window && swapChain.BuiltFrom(device, o.extent, false)
      ensures fresh(swapChain)
      ensures !isFrameStarted && currentFrameIndex == 0 && currentImageIndex == 0
      ensures allocations == 1 && commandBuffers == Allocation(0)
    {
      var extent := WaitForNonZeroExtent(window, events);
      this.window := window;
      swapChain := new SwapChain(device, extent, null);
      commandBuffers := Allocation(0);
      allocations := 1;
      currentImageIndex, currentFrameIndex, isFrameStarted := 0, 0, false;
      pendingFence := [None, None];
    }

    /** isFrameInProgress. */
    function IsFrameInProgress(): (inProgress: bool)
      reads this
      ensures inProgress <==> isFrameStarted
    {
      isFrameStarted
    }

    /** getCurrentCommandBuffer: while a frame is open, the current slot's
        buffer from the latest allocation. */
    function GetCurrentCommandBuffer(): (cb: CommandBuffer)
      reads this, swapChain
      requires Core() && isFrameStarted
      ensures cb in commandBuffers
      ensures cb.allocation == allocations - 1 && cb.index == currentFrameIndex
    {
      commandBuffers[currentFrameIndex]
    }

    /** getFrameIndex: while a frame is open, the slot of its command buffer. */
    function GetFrameIndex(): (index: nat)
      reads this, swapChain
      requires Core() && isFrameStarted
      ensures index < MAX_FRAMES_IN_FLIGHT
      ensures GetCurrentCommandBuffer().index == index
    {
      currentFrameIndex
    }

    /** getSwapChainRenderPass: the pass over the chain's image and depth formats. */
    function GetSwapChainRenderPass(): (pass: RenderPass)
      reads this, swapChain
      requires Core()
      ensures pass.colorFormat == swapChain.imageFormat && pass.depthFormat == swapChain.depthFormat
    {
      swapChain.renderPass
    }

    /** createCommandBuffers (after freeCommandBuffers when there were some):
        exactly MAX_FRAMES_IN_FLIGHT fresh buffers. */
    method CreateCommandBuffers()
      modifies this`commandBuffers, this`allocations
      ensures |commandBuffers| == MAX_FRAMES_IN_FLIGHT
      ensures commandBuffers == Allocation(old(allocations)) && allocations == old(allocations) + 1
      ensures forall b :: b in old(commandBuffers) && b.allocation < old(allocations) ==> b !in commandBuffers
    {
      commandBuffers := Allocation(allocations);
      allocations := allocations + 1;
    }

    /** recreateSwapChain for an existing chain: wait for a non-zero extent,
        let the device go idle, build a new chain chained to the old one,
        insist on unchanged formats, and reallocate the command buffers when
        the new image count differs from the number of command buffers. */
    method RecreateSwapChain(device: DeviceInfo, events: seq<WindowEvent>) returns (o: Outcome)
      requires Core()
      requires CanRebuild(device, events)
      modifies this`swapChain, this`commandBuffers, this`allocations, this`pendingFence
      modifies window`width, window`height, window`frameBufferResize
      ensures Core() && NoPendingWork()
      ensures fresh(swapChain)
      ensures var w := WaitForDrawableExtent(old(StateOf(window)), events).value;
        StateOf(window) == w.window && swapChain.BuiltFrom(device, w.extent, true)
      ensures o == if old(swapChain).CompareSwapFormats(swapChain) then Pass else Fail(FormatChanged)
      ensures o.Pass? && swapChain.imageCount != old(|commandBuffers|) ==>
        commandBuffers == Allocation(old(allocations)) && allocations == old(allocations) + 1
      ensures o.Fail? || swapChain.imageCount == old(|commandBuffers|) ==>
        commandBuffers == old(commandBuffers) && allocations == old(allocations)
    {
      var extent := WaitForNonZeroExtent(window, events);
      // vkDeviceWaitIdle: every submitted command buffer has completed.
      pendingFence := [None, None];
      var oldSwapChain := swapChain;
      swapChain := new SwapChain(device, extent, oldSwapChain);
      if !oldSwapChain.CompareSwapFormats(swapChain) {
        return Fail(FormatChanged);
      }
      if swapChain.imageCount != |commandBuffers| {
        CreateCommandBuffers();
      }
      o := Pass;
    }

    /** beginFrame: acquire the next image; on a stale chain rebuild and
        hand out no buffer; otherwise open the frame on the current slot's
        command buffer, which is then not in use by the GPU. */
    method BeginFrame(reply: AcquireReply, recordingOk: bool, device: DeviceInfo, events: seq<WindowEvent>)
      returns (r: Result<Option<CommandBuffer>>)
      requires Valid() && !isFrameStarted
      requires Acquired(reply.result) ==> reply.imageIndex < swapChain.imageCount
      requires reply.result == OutOfDate ==> CanRebuild(device, events)
      modifies this`swapChain, this`commandBuffers, this`allocations, this`pendingFence,
               this`currentImageIndex, this`isFrameStarted
      modifies swapChain`inFlightFences, swapChain`imageAvailableSemaphores, swapChain`log
      modifies window`width, window`height, window`frameBufferResize
      ensures currentFrameIndex == old(currentFrameIndex)
      ensures reply.result == OutOfDate ==>
        var w := WaitForDrawableExtent(old(StateOf(window)), events).value;
        && !isFrameStarted
        && fresh(swapChain)
        && StateOf(window) == w.window
        && swapChain.BuiltFrom(device, w.extent, true)
        && r == (if old(swapChain).CompareSwapFormats(swapChain) then Ok(None) else Failure(FormatChanged))
        && commandBuffers == (if r.Ok? && swapChain.imageCount != MAX_FRAMES_IN_FLIGHT
                              then Allocation(old(allocations)) else old(commandBuffers))
        && (r.Ok? ==> Valid() && NoPendingWork())
      ensures Acquired(reply.result) ==>
        && Valid()
        && isFrameStarted
        && swapChain == old(swapChain)
        && StateOf(window) == old(StateOf(window))
        && currentImageIndex == reply.imageIndex
        && commandBuffers == old(commandBuffers)
        && r == (if recordingOk then Ok(Some(GetCurrentCommandBuffer())) else Failure(BeginRecordingFailed))
        && !InUse(currentFrameIndex)
        && swapChain.inFlightFences == old(swapChain.inFlightFences)[swapChain.currentFrame := Fence(true)]
        && swapChain.imageAvailableSemaphores ==
             old(swapChain.imageAvailableSemaphores)[swapChain.currentFrame := Semaphore(true)]
        && swapChain.log == old(swapChain.log) + [WaitFence(swapChain.currentFrame, !old(swapChain.inFlightFences)[swapChain.currentFrame].signalled),
                                                  AcquireImage(swapChain.currentFrame)]
      ensures !Acquired(reply.result) && reply.result != OutOfDate ==>
        && Valid()
        && !isFrameStarted
        && swapChain == old(swapChain)
        && StateOf(window) == old(StateOf(window))
        && r == Failure(AcquireFailed)
        && swapChain.inFlightFences == old(swapChain.inFlightFences)[swapChain.currentFrame := Fence(true)]
        && swapChain.imageAvailableSemaphores == old(swapChain.imageAvailableSemaphores)
        && swapChain.log == old(swapChain.log) + [WaitFence(swapChain.currentFrame, !old(swapChain.inFlightFences)[swapChain.currentFrame].signalled),
                                                  AcquireImage(swapChain.currentFrame)]
      ensures reply.result == OutOfDate ==>
        && old(swapChain).inFlightFences == old(swapChain.inFlightFences)[old(swapChain.currentFrame) := Fence(true)]
        && old(swapChain).imageAvailableSemaphores == old(swapChain.imageAvailableSemaphores)
        && old(swapChain).log == old(swapChain.log) + [WaitFence(old(swapChain.currentFrame), !old(swapChain.inFlightFences)[old(swapChain.currentFrame)].signalled),
                                                       AcquireImage(old(swapChain.currentFrame))]
    {
      var result, index := swapChain.AcquireNextImage(reply);
      if Acquired(result) {
        currentImageIndex := index;
      }
      if result == OutOfDate {
        var o := RecreateSwapChain(device, events);
        if o.Fail? {
          return Failure(o.error);
        }
        return Ok(None);
      }
      if !Acquired(result) {
        return Failure(AcquireFailed);
      }
      isFrameStarted := true;
      var commandBuffer := GetCurrentCommandBuffer();
      if pendingFence[currentFrameIndex].Some? {
        AlignedCurrentSlot(pendingFence, currentFrameIndex, swapChain.currentFrame);
      }
      if !recordingOk {
        return Failure(BeginRecordingFailed);
      }
      r := Ok(Some(commandBuffer));
    }

    /** endFrame: close the command buffer, submit and present it; rebuild
        when the present reports a stale or suboptimal chain or the window
        was resized; then close the frame and advance the slot. */
    method EndFrame(recordingOk: bool, submitResult: VkResult, presentResult: VkResult,
                    device: DeviceInfo, events: seq<WindowEvent>)
      returns (o: Outcome)
      requires Valid() && isFrameStarted
      requires recordingOk && submitResult == Success && RebuildWanted(presentResult, window.frameBufferResize) ==>
        |device.support.formats| > 0 && WaitForDrawableExtent(StateOf(window).(resized := false), events).Some?
      modifies this`swapChain, this`commandBuffers, this`allocations, this`pendingFence,
               this`currentFrameIndex, this`isFrameStarted
      modifies swapChain`imagesInFlight, swapChain`inFlightFences, swapChain`imageAvailableSemaphores,
               swapChain`currentFrame, swapChain`log
      modifies window`width, window`height, window`frameBufferResize
      ensures !recordingOk ==>
        o == Fail(EndRecordingFailed) && isFrameStarted && swapChain == old(swapChain) &&
        currentFrameIndex == old(currentFrameIndex) && unchanged(swapChain)
      ensures recordingOk && submitResult != Success ==>
        && o == Fail(SubmitFailed) && isFrameStarted && swapChain == old(swapChain)
        && currentFrameIndex == old(currentFrameIndex)
        && swapChain.currentFrame == old(swapChain.currentFrame)
        && swapChain.log ==
             old(swapChain.log)
             + ImageWaitEvents(old(swapChain.inFlightFences), old(swapChain.imagesInFlight)[old(currentImageIndex)])
             + [ResetFence(old(swapChain.currentFrame))]
      ensures recordingOk ==>
        && old(swapChain).imagesInFlight == old(swapChain.imagesInFlight)[old(currentImageIndex) := Some(old(swapChain.currentFrame))]
        && old(swapChain).inFlightFences ==
             AfterImageWait(old(swapChain.inFlightFences), old(swapChain.imagesInFlight)[old(currentImageIndex)])
               [old(swapChain.currentFrame) := Fence(false)]
      ensures recordingOk && submitResult == Success ==>
        && old(swapChain).currentFrame == (old(swapChain.currentFrame) + 1) % MAX_FRAMES_IN_FLIGHT
        && old(swapChain).log ==
             old(swapChain.log)
             + ImageWaitEvents(old(swapChain.inFlightFences), old(swapChain.imagesInFlight)[old(currentImageIndex)])
             + [ResetFence(old(swapChain.currentFrame)),
                SubmitWork(old(GetCurrentCommandBuffer()), old(swapChain.currentFrame)),
                PresentImage(old(swapChain.currentFrame), old(currentImageIndex))]
      ensures recordingOk && submitResult == Success && !RebuildWanted(presentResult, old(window.frameBufferResize)) ==>
        && swapChain == old(swapChain)
        && commandBuffers == old(commandBuffers)
        && StateOf(window) == old(StateOf(window))
        && o == (if presentResult == Success then Pass else Fail(PresentFailed))
      ensures recordingOk && submitResult == Success && RebuildWanted(presentResult, old(window.frameBufferResize)) ==>
        var w := WaitForDrawableExtent(old(StateOf(window)).(resized := false), events).value;
        && fresh(swapChain)
        && StateOf(window) == w.window
        && swapChain.BuiltFrom(device, w.extent, true)
        && NoPendingWork()
        && o == (if old(swapChain).CompareSwapFormats(swapChain) then Pass else Fail(FormatChanged))
        && commandBuffers == (if o.Pass? && swapChain.imageCount != MAX_FRAMES_IN_FLIGHT
                              then Allocation(old(allocations)) else old(commandBuffers))
      ensures o.Pass? ==>
        && Valid()
        && !isFrameStarted
        && currentFrameIndex == NextFrameIndex(old(currentFrameIndex))
    {
      var commandBuffer := GetCurrentCommandBuffer();
      if !recordingOk {
        return Fail(EndRecordingFailed);
      }
      ghost var slot := swapChain.currentFrame;
      AlignedAfterSubmit(pendingFence, currentFrameIndex, slot);
      var submitted := swapChain.SubmitCommandBuffers(commandBuffer, currentImageIndex, submitResult, presentResult);
      if submitted.Failure? {
        return Fail(SubmitFailed);
      }
      pendingFence := pendingFence[currentFrameIndex := Some(slot)];
      o := FinishFrame(submitted.value, device, events);
    }

    /** The part of endFrame after a successful submission: rebuild on a
        stale or suboptimal chain or a resize, fail on any other non-success
        present result, and otherwise (or after a rebuild that kept the
        formats) close the frame and advance the slot. */
    method FinishFrame(presentResult: VkResult, device: DeviceInfo, events: seq<WindowEvent>) returns (o: Outcome)
      requires Core() && isFrameStarted
      requires forall s :: 0 <= s < MAX_FRAMES_IN_FLIGHT ==> !swapChain.imageAvailableSemaphores[s].signalPending
      requires Aligned(pendingFence, NextFrameIndex(currentFrameIndex), swapChain.currentFrame)
      requires RebuildWanted(presentResult, window.frameBufferResize) ==>
        |device.support.formats| > 0 && WaitForDrawableExtent(StateOf(window).(resized := false), events).Some?
      modifies this`swapChain, this`commandBuffers, this`allocations, this`pendingFence,
               this`currentFrameIndex, this`isFrameStarted
      modifies window`width, window`height, window`frameBufferResize
      ensures !RebuildWanted(presentResult, old(window.frameBufferResize)) ==>
        && swapChain == old(swapChain)
        && commandBuffers == old(commandBuffers)
        && StateOf(window) == old(StateOf(window))
        && o == (if presentResult == Success then Pass else Fail(PresentFailed))
      ensures RebuildWanted(presentResult, old(window.frameBufferResize)) ==>
        var w := WaitForDrawableExtent(old(StateOf(window)).(resized := false), events).value;
        && fresh(swapChain)
        && StateOf(window) == w.window
        && swapChain.BuiltFrom(device, w.extent, true)
        && NoPendingWork()
        && o == (if old(swapChain).CompareSwapFormats(swapChain) then Pass else Fail(FormatChanged))
        && commandBuffers == (if o.Pass? && swapChain.imageCount != MAX_FRAMES_IN_FLIGHT
                              then Allocation(old(allocations)) else old(commandBuffers))
      ensures o.Pass? ==>
        && Valid()
        && !isFrameStarted
        && currentFrameIndex == NextFrameIndex(old(currentFrameIndex))
    {
      if presentResult == OutOfDate || presentResult == Suboptimal || window.WasWindowResized() {
        window.ResetWindowResizeFlag();
        var rebuilt := RecreateSwapChain(device, events);
        if rebuilt.Fail? {
          return rebuilt;
        }
      } else if presentResult != Success {
        return Fail(PresentFailed);
      }
      isFrameStarted := false;
      currentFrameIndex := NextFrameIndex(currentFrameIndex);
      o := Pass;
    }

    /** beginSwapChainRenderPass: on the open frame's own command buffer,
        begin the chain's render pass on the framebuffer of the acquired
        image, and set viewport and scissor, all over the full extent. */
    method BeginSwapChainRenderPass(commandBuffer: CommandBuffer) returns (recorded: seq<Command>)
      requires Valid() && isFrameStarted
      requires commandBuffer == GetCurrentCommandBuffer()
      ensures |recorded| == 3
      ensures recorded[0].BeginRenderPass? && recorded[0].pass == swapChain.renderPass
      ensures recorded[0].framebuffer.image == currentImageIndex < swapChain.imageCount
      ensures recorded[0].framebuffer.extent == swapChain.extent
      ensures recorded[0].renderArea == FullArea(swapChain.extent)
      ensures recorded[1] == SetViewport(FullArea(swapChain.extent))
      ensures recorded[2] == SetScissor(FullArea(swapChain.extent))
    {
      var framebuffer := swapChain.GetFrameBuffer(currentImageIndex);
      var area := FullArea(swapChain.extent);
      recorded := [BeginRenderPass(swapChain.renderPass, framebuffer, area), SetViewport(area), SetScissor(area)];
    }

    /** endSwapChainRenderPass: on the open frame's own command buffer. */
    method EndSwapChainRenderPass(commandBuffer: CommandBuffer) returns (recorded: seq<Command>)
      requires Valid() && isFrameStarted
      requires commandBuffer == GetCurrentCommandBuffer()
      ensures recorded == [EndRenderPass]
    {
      recorded := [EndRenderPass];
    }
  }

  /** A rebuild resets the chain's slot counter but not the renderer's: after
      one frame whose present reports a suboptimal chain, the renderer records
      into slot 1 of a fresh allocation while the new chain uses its slot 0. */
  method CountersDivergeAfterRebuild()
  {
    var window := new Window(800, 600, "client");
    var caps := SurfaceCapabilities(2, 0, Extent(800, 600), Extent(1, 1), Extent(4096, 4096));
    var device := DeviceInfo(SwapChainSupport(caps, [PREFERRED_SURFACE_FORMAT], [Fifo]),
                             QueueFamilies(0, 0), FORMAT_D32_SFLOAT, 3);
    WaitReturnsAtOnce(StateOf(window), []);
    var renderer := new Renderer(window, device, []);
    var begun := renderer.BeginFrame(AcquireReply(Success, 0), true, device, []);
    assert begun == Ok(Some(CommandBuffer(0, 0)));
    WaitReturnsAtOnce(StateOf(window).(resized := false), []);
    var ended := renderer.EndFrame(true, Success, Suboptimal, device, []);
    assert ended == Pass;
    assert renderer.currentFrameIndex == 1 && renderer.swapChain.currentFrame == 0;
    begun := renderer.BeginFrame(AcquireReply(Success, 2), true, device, []);
    assert begun == Ok(Some(CommandBuffer(1, 1)));
  }
}
