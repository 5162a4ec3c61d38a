/** The chain of presentable images: the negotiation rules that shape a new
    chain, the per-image resources built with it, and the per-slot
    synchronisation state that acquire and submit work on. */
module SwapChains {
  import opened VulkanTypes

  /** `SwapChain::MAX_FRAMES_IN_FLIGHT`: the number of CPU recording slots. */
  const MAX_FRAMES_IN_FLIGHT: nat := 2

  // ---------------------------------------------------------------------
  // Negotiation rules
  // ---------------------------------------------------------------------

  /** The 4x8-bit sRGB format with the sRGB non-linear colour space. */
  const PREFERRED_SURFACE_FORMAT := SurfaceFormat(FORMAT_B8G8R8A8_SRGB, COLOR_SPACE_SRGB_NONLINEAR)

  predicate IsPreferred(f: SurfaceFormat) {
    f.format == FORMAT_B8G8R8A8_SRGB && f.colorSpace == COLOR_SPACE_SRGB_NONLINEAR
  }

  /** The scan of chooseSwapSurfaceFormat: the first preferred entry at or after `from`. */
  function FirstPreferred(formats: seq<SurfaceFormat>, from: nat): (r: Option<nat>)
    requires from <= |formats|
    ensures r.Some? ==> from <= r.value < |formats| && IsPreferred(formats[r.value])
    ensures r.Some? ==> forall k :: from <= k < r.value ==> !IsPreferred(formats[k])
    ensures r.None? <==> forall k :: from <= k < |formats| ==> !IsPreferred(formats[k])
    decreases |formats| - from
  {
    if from == |formats| then None
    else if IsPreferred(formats[from]) then Some(from)
    else FirstPreferred(formats, from + 1)
  }

  /** chooseSwapSurfaceFormat: the preferred format if the surface offers it,
      otherwise the first format the surface reports. */
  function ChooseSwapSurfaceFormat(formats: seq<SurfaceFormat>): (r: SurfaceFormat)
    requires |formats| > 0
    ensures r in formats
    ensures PREFERRED_SURFACE_FORMAT in formats ==> r == PREFERRED_SURFACE_FORMAT
    ensures PREFERRED_SURFACE_FORMAT !in formats ==> r == formats[0]
    ensures exists k :: 0 <= k < |formats| && r == formats[k] &&
                        (IsPreferred(r) || k == 0) &&
                        forall j :: 0 <= j < k ==> !IsPreferred(formats[j])
  {
    match FirstPreferred(formats, 0)
    case Some(k) => formats[k]
    case None => formats[0]
  }

  /** chooseSwapPresentMode: immediate presentation when offered, otherwise
      FIFO (vertical sync), which every surface supports. The mailbox
      preference of the source is commented out, so mailbox is never chosen. */
  function ChooseSwapPresentMode(modes: seq<PresentMode>): (r: PresentMode)
    ensures r == Immediate <==> Immediate in modes
    ensures r != Immediate ==> r == Fifo
    ensures r != Mailbox
  {
    if |modes| == 0 then Fifo
    else if modes[0] == Immediate then modes[0]
    else ChooseSwapPresentMode(modes[1..])
  }

  /** One dimension of chooseSwapExtent: `std::max(lo, std::min(hi, x))`. */
  function ClampDimension(lo: uint32, hi: uint32, x: uint32): (r: uint32)
    ensures lo <= r
    ensures lo <= hi ==> r <= hi
    ensures lo <= x <= hi ==> r == x
    ensures x < lo ==> r == lo
    ensures lo <= hi < x ==> r == hi
    ensures hi < lo ==> r == lo
  {
    Max(lo, Min(hi, x))
  }

  /** chooseSwapExtent: the surface's current extent unless its width is the
      "undefined" marker UINT32_MAX; then the window extent clamped, per
      dimension, to the surface's minimum and maximum image extent. */
  function ChooseSwapExtent(caps: SurfaceCapabilities, windowExtent: Extent): (r: Extent)
    ensures caps.currentExtent.width as int != UINT32_MAX ==> r == caps.currentExtent
    ensures caps.currentExtent.width as int == UINT32_MAX ==>
      && r.width == ClampDimension(caps.minImageExtent.width, caps.maxImageExtent.width, windowExtent.width)
      && r.height == ClampDimension(caps.minImageExtent.height, caps.maxImageExtent.height, windowExtent.height)
  {
    if caps.currentExtent.width as int != UINT32_MAX then caps.currentExtent
    else Extent(
      ClampDimension(caps.minImageExtent.width, caps.maxImageExtent.width, windowExtent.width),
      ClampDimension(caps.minImageExtent.height, caps.maxImageExtent.height, windowExtent.height))
  }

  /** Whether `e` lies within the surface's minimum and maximum image extent. */
  predicate WithinImageExtents(caps: SurfaceCapabilities, e: Extent) {
    && caps.minImageExtent.width <= e.width <= caps.maxImageExtent.width
    && caps.minImageExtent.height <= e.height <= caps.maxImageExtent.height
  }

  /** When the surface leaves the extent to the client, the chosen extent is
      never below the minimum, within the range whenever the range is not
      empty, and exactly the window's extent when that already fits. */
  lemma ChooseSwapExtentBounds(caps: SurfaceCapabilities, windowExtent: Extent)
    requires caps.currentExtent.width as int == UINT32_MAX
    ensures var r := ChooseSwapExtent(caps, windowExtent);
      && caps.minImageExtent.width <= r.width
      && caps.minImageExtent.height <= r.height
      && ((caps.minImageExtent.width <= caps.maxImageExtent.width &&
           caps.minImageExtent.height <= caps.maxImageExtent.height) ==> WithinImageExtents(caps, r))
      && (WithinImageExtents(caps, windowExtent) ==> r == windowExtent)
  {
    var r := ChooseSwapExtent(caps, windowExtent);
    var w := ClampDimension(caps.minImageExtent.width, caps.maxImageExtent.width, windowExtent.width);
    var h := ClampDimension(caps.minImageExtent.height, caps.maxImageExtent.height, windowExtent.height);
    assert r == Extent(w, h);
  }

  /** The image count requested in createSwapChain: one more than the surface
      minimum (in 32-bit unsigned arithmetic), lowered to the surface maximum
      when there is one; a maximum of 0 means "no limit". */
  function RequestedImageCount(caps: SurfaceCapabilities): (r: uint32)
    ensures caps.maxImageCount > 0 ==> r <= caps.maxImageCount
    ensures caps.maxImageCount == 0 && caps.minImageCount as int < UINT32_MAX ==>
      r as int == caps.minImageCount as int + 1
    ensures caps.minImageCount < caps.maxImageCount ==> r as int == caps.minImageCount as int + 1
    ensures 0 < caps.maxImageCount <= caps.minImageCount && caps.minImageCount as int < UINT32_MAX ==>
      r == caps.maxImageCount
    ensures caps.minImageCount as int == UINT32_MAX ==> r == 0
  {
    var count := ((caps.minImageCount as int + 1) % 0x1_0000_0000) as uint32;
    if caps.maxImageCount > 0 && count > caps.maxImageCount then caps.maxImageCount else count
  }

  datatype SharingMode = Exclusive | Concurrent

  /** `imageSharingMode` with its `queueFamilyIndexCount`/`pQueueFamilyIndices`. */
  datatype Sharing = Sharing(mode: SharingMode, queueFamilyIndices: seq<uint32>)

  /** The sharing-mode decision of createSwapChain: images are shared
      concurrently between two distinct graphics and present families, and
      owned exclusively when one family does both. */
  function ChooseSharing(families: QueueFamilies): (s: Sharing)
    ensures s.mode == Concurrent <==> families.graphicsFamily != families.presentFamily
    ensures s.mode == Concurrent ==> s.queueFamilyIndices == [families.graphicsFamily, families.presentFamily]
    ensures s.mode == Exclusive ==> s.queueFamilyIndices == []
  {
    if families.graphicsFamily != families.presentFamily then
      Sharing(Concurrent, [families.graphicsFamily, families.presentFamily])
    else
      Sharing(Exclusive, [])
  }

  /** The negotiated part of `VkSwapchainCreateInfoKHR`. */
  datatype SwapchainCreateInfo = SwapchainCreateInfo(
    minImageCount: uint32,
    surfaceFormat: SurfaceFormat,
    imageExtent: Extent,
    sharing: Sharing,
    presentMode: PresentMode,
    chainedToOldSwapchain: bool)

  /** createSwapChain's create-info for the device's answers, the window's
      extent and whether a previous chain is handed over as `oldSwapchain`. */
  function CreateInfo(device: DeviceInfo, windowExtent: Extent, hasPrevious: bool): (info: SwapchainCreateInfo)
    requires |device.support.formats| > 0
    ensures info.surfaceFormat in device.support.formats
    ensures info.presentMode == Immediate || info.presentMode == Fifo
    ensures info.chainedToOldSwapchain == hasPrevious
  {
    var support := device.support;
    SwapchainCreateInfo(
      RequestedImageCount(support.capabilities),
      ChooseSwapSurfaceFormat(support.formats),
      ChooseSwapExtent(support.capabilities, windowExtent),
      ChooseSharing(device.families),
      ChooseSwapPresentMode(support.presentModes),
      hasPrevious)
  }

  // ---------------------------------------------------------------------
  // Resources of one chain generation
  // ---------------------------------------------------------------------

  /** The render pass: attachment 0 is the colour image, attachment 1 the depth image. */
  datatype RenderPass = RenderPass(colorFormat: Format, depthFormat: Format)

  /** One depth image (with its memory and view), sized like the chain. */
  datatype DepthAttachment = DepthAttachment(format: Format, extent: Extent)

  /** A framebuffer over the colour view and the depth view of image `image`. */
  datatype Framebuffer = Framebuffer(image: nat, extent: Extent)

  /** A semaphore, with whether a signal operation on it is pending. */
  datatype Semaphore = Semaphore(signalPending: bool)

  /** A fence, with whether the CPU knows it to be signalled. After a reset it
      stays unsignalled (as far as the CPU knows) until a wait on it returns. */
  datatype Fence = Fence(signalled: bool)

  /** The synchronisation calls of acquire and submit, in the order issued. */
  datatype SyncEvent =
    | WaitFence(slot: nat, mayBlock: bool)   // vkWaitForFences on in_flight_fences[slot]; mayBlock: not known signalled
    | AcquireImage(slot: nat)                // vkAcquireNextImageKHR signalling image_available_semaphores[slot]
    | ResetFence(slot: nat)                  // vkResetFences on in_flight_fences[slot]
    | SubmitWork(buffer: CommandBuffer, slot: nat)
                                             // vkQueueSubmit: waits image_available[slot], signals
                                             // render_finished[slot] and in_flight_fences[slot]
    | PresentImage(slot: nat, image: nat)    // vkQueuePresentKHR of `image`, waiting render_finished[slot]

  function SignalledFences(n: nat): (fences: seq<Fence>)
    ensures |fences| == n && forall s :: 0 <= s < n ==> fences[s] == Fence(true)
  {
    seq(n, _ => Fence(true))
  }

  /** The fences after a wait on the fence `f` of images_in_flight (if any). */
  function AfterImageWait(fences: seq<Fence>, f: Option<nat>): (r: seq<Fence>)
    requires f.Some? ==> f.value < |fences|
    ensures |r| == |fences|
    ensures forall s :: 0 <= s < |fences| ==> r[s] == if f == Some(s) then Fence(true) else fences[s]
  {
    if f.Some? then fences[f.value := Fence(true)] else fences
  }

  /** The wait events submitCommandBuffers issues for images_in_flight entry `f`. */
  function ImageWaitEvents(fences: seq<Fence>, f: Option<nat>): (r: seq<SyncEvent>)
    requires f.Some? ==> f.value < |fences|
    ensures f.None? <==> r == []
    ensures f.Some? ==> r == [WaitFence(f.value, !fences[f.value].signalled)]
  {
    if f.Some? then [WaitFence(f.value, !fences[f.value].signalled)] else []
  }

  /** The image and depth formats of a chain, which compareSwapFormats compares. */
  datatype ChainFormats = ChainFormats(imageFormat: Format, depthFormat: Format)

  class SwapChain {
    const createInfo: SwapchainCreateInfo
    const imageFormat: Format            // swap_chain_image_format
    const depthFormat: DepthFormat       // swap_chain_depth_format
    const extent: Extent                 // swap_chain_extent
    const imageCount: nat                // swap_chain_images.size()
    const renderPass: RenderPass

    var depthAttachments: seq<DepthAttachment>
    var framebuffers: seq<Framebuffer>

    var imageAvailableSemaphores: seq<Semaphore>
    var renderFinishedSemaphores: seq<Semaphore>
    var inFlightFences: seq<Fence>
    /** images_in_flight: the slot whose fence last guarded each image, or none. */
    var imagesInFlight: seq<Option<nat>>
    var currentFrame: nat
    var log: seq<SyncEvent>

    ghost predicate Valid()
      reads this
    {
      && |depthAttachments| == imageCount
      && |framebuffers| == imageCount
      && |imagesInFlight| == imageCount
      && |imageAvailableSemaphores| == MAX_FRAMES_IN_FLIGHT
      && |renderFinishedSemaphores| == MAX_FRAMES_IN_FLIGHT
      && |inFlightFences| == MAX_FRAMES_IN_FLIGHT
      && currentFrame < MAX_FRAMES_IN_FLIGHT
      && renderPass == RenderPass(imageFormat, depthFormat)
      && (forall i :: 0 <= i < imageCount ==> depthAttachments[i] == DepthAttachment(depthFormat, extent))
      && (forall i :: 0 <= i < imageCount ==> framebuffers[i] == Framebuffer(i, extent))
      && (forall i :: 0 <= i < imageCount && imagesInFlight[i].Some? ==>
            imagesInFlight[i].value < MAX_FRAMES_IN_FLIGHT)
    }

    /** The synchronisation state createSyncObjects leaves: every slot fence
        signalled, no semaphore signal pending, no image guarded by a fence,
        slot 0 current, nothing issued yet. */
    ghost predicate FreshSyncState()
      reads this
    {
      && inFlightFences == SignalledFences(MAX_FRAMES_IN_FLIGHT)
      && (forall s :: 0 <= s < |imageAvailableSemaphores| ==> !imageAvailableSemaphores[s].signalPending)
      && (forall s :: 0 <= s < |renderFinishedSemaphores| ==> !renderFinishedSemaphores[s].signalPending)
      && (forall i :: 0 <= i < |imagesInFlight| ==> imagesInFlight[i].None?)
      && currentFrame == 0
      && log == []
    }

    /** What init promises of a chain built from the device's answers and
        the window's extent. */
    ghost predicate BuiltFrom(device: DeviceInfo, windowExtent: Extent, hasPrevious: bool)
      reads this
      requires |device.support.formats| > 0
    {
      && Valid() && FreshSyncState()
      && createInfo == CreateInfo(device, windowExtent, hasPrevious)
      && imageFormat == createInfo.surfaceFormat.format
      && depthFormat == device.depthFormat
      && extent == createInfo.imageExtent
      && imageCount == device.grantedImageCount
    }

    /** Builds a chain (init): createSwapChain, the views, render pass, depth
        resources, framebuffers and synchronisation objects. `previous` is
        only handed to the driver as the `oldSwapchain` hint. */
    constructor (device: DeviceInfo, windowExtent: Extent, previous: SwapChain?)
      requires |device.support.formats| > 0
      ensures BuiltFrom(device, windowExtent, previous != null)
    {
      var info := CreateInfo(device, windowExtent, previous != null);
      createInfo := info;
      imageFormat := info.surfaceFormat.format;
      extent := info.imageExtent;
      imageCount := device.grantedImageCount;
      depthFormat := device.depthFormat;
      renderPass := RenderPass(info.surfaceFormat.format, device.depthFormat);
      new;
      CreateDepthResources();
      CreateFrameBuffers();
      CreateSyncObjects();
    }

    /** createDepthResources: one depth attachment per image. */
    method CreateDepthResources()
      modifies this`depthAttachments
      ensures |depthAttachments| == imageCount
      ensures forall i :: 0 <= i < imageCount ==> depthAttachments[i] == DepthAttachment(depthFormat, extent)
    {
      depthAttachments := [];
      var i := 0;
      while i < imageCount
        invariant 0 <= i <= imageCount
        invariant |depthAttachments| == i
        invariant forall k :: 0 <= k < i ==> depthAttachments[k] == DepthAttachment(depthFormat, extent)
      {
        depthAttachments := depthAttachments + [DepthAttachment(depthFormat, extent)];
        i := i + 1;
      }
    }

    /** createFrameBuffers: framebuffer `i` binds colour view `i` and depth view `i`. */
    method CreateFrameBuffers()
      modifies this`framebuffers
      ensures |framebuffers| == imageCount
      ensures forall i :: 0 <= i < imageCount ==> framebuffers[i] == Framebuffer(i, extent)
    {
      framebuffers := [];
      var i := 0;
      while i < imageCount
        invariant 0 <= i <= imageCount
        invariant |framebuffers| == i
        invariant forall k :: 0 <= k < i ==> framebuffers[k] == Framebuffer(k, extent)
      {
        framebuffers := framebuffers + [Framebuffer(i, extent)];
        i := i + 1;
      }
    }

    /** createSyncObjects: MAX_FRAMES_IN_FLIGHT semaphores of each kind and
        fences created signalled, and an images_in_flight entry per image. */
    method CreateSyncObjects()
      modifies this`imageAvailableSemaphores, this`renderFinishedSemaphores, this`inFlightFences,
               this`imagesInFlight, this`currentFrame, this`log
      ensures |imageAvailableSemaphores| == MAX_FRAMES_IN_FLIGHT
      ensures |renderFinishedSemaphores| == MAX_FRAMES_IN_FLIGHT
      ensures |imagesInFlight| == imageCount
      ensures FreshSyncState()
    {
      imageAvailableSemaphores, renderFinishedSemaphores, inFlightFences := [], [], [];
      var i := 0;
      while i < MAX_FRAMES_IN_FLIGHT
        invariant 0 <= i <= MAX_FRAMES_IN_FLIGHT
        invariant |imageAvailableSemaphores| == i && |renderFinishedSemaphores| == i
        invariant inFlightFences == SignalledFences(i)
        invariant forall s :: 0 <= s < i ==> !imageAvailableSemaphores[s].signalPending
        invariant forall s :: 0 <= s < i ==> !renderFinishedSemaphores[s].signalPending
      {
        imageAvailableSemaphores := imageAvailableSemaphores + [Semaphore(false)];
        renderFinishedSemaphores := renderFinishedSemaphores + [Semaphore(false)];
        inFlightFences := inFlightFences + [Fence(true)];
        i := i + 1;
      }
      imagesInFlight := seq(imageCount, _ => None);
      currentFrame := 0;
      log := [];
    }

    /** getFrameBuffer. */
    function GetFrameBuffer(index: nat): (fb: Framebuffer)
      reads this
      requires Valid() && index < imageCount
      ensures fb.image == index && fb.extent == extent
    {
      framebuffers[index]
    }

    function Formats(): ChainFormats {
      ChainFormats(imageFormat, depthFormat)
    }

    /** compareSwapFormats: whether two chain generations agree on both the
        depth format and the image format. */
    function CompareSwapFormats(other: SwapChain): (same: bool)
      ensures same <==> Formats() == other.Formats()
    {
      other.depthFormat == depthFormat && other.imageFormat == imageFormat
    }

    /** acquireNextImage: waits on the current slot's fence (only that one),
        then asks for the next image with the slot's image-available
        semaphore, which must not have a signal pending. `reply` is the
        driver's answer; the driver only reports images of this chain. */
    method AcquireNextImage(reply: AcquireReply) returns (result: VkResult, imageIndex: nat)
      requires Valid()
      requires !imageAvailableSemaphores[currentFrame].signalPending
      requires Acquired(reply.result) ==> reply.imageIndex < imageCount
      modifies this`inFlightFences, this`imageAvailableSemaphores, this`log
      ensures Valid()
      ensures result == reply.result && imageIndex == reply.imageIndex
      ensures inFlightFences == old(inFlightFences)[currentFrame := Fence(true)]
      ensures imageAvailableSemaphores ==
        if Acquired(result) then old(imageAvailableSemaphores)[currentFrame := Semaphore(true)]
        else old(imageAvailableSemaphores)
      ensures log == old(log) + [WaitFence(currentFrame, !old(inFlightFences)[currentFrame].signalled),
                                 AcquireImage(currentFrame)]
    {
      log := log + [WaitFence(currentFrame, !inFlightFences[currentFrame].signalled)];
      inFlightFences := inFlightFences[currentFrame := Fence(true)];
      log := log + [AcquireImage(currentFrame)];
      result, imageIndex := reply.result, reply.imageIndex;
      if Acquired(result) {
        imageAvailableSemaphores := imageAvailableSemaphores[currentFrame := Semaphore(true)];
      }
    }

    /** submitCommandBuffers: waits on the fence that last guarded the image
        (if any), makes the current slot's fence guard it, resets that fence,
        submits `buffer` and presents the image; the slot then advances,
        whatever the present result. `submitResult` and `presentResult` are
        what vkQueueSubmit and vkQueuePresentKHR return. The submission waits
        on the slot's image-available semaphore, so that semaphore must have
        a signal pending. */
    method SubmitCommandBuffers(buffer: CommandBuffer, imageIndex: nat, submitResult: VkResult, presentResult: VkResult)
      returns (r: Result<VkResult>)
      requires Valid() && imageIndex < imageCount
      requires imageAvailableSemaphores[currentFrame].signalPending
      modifies this`imagesInFlight, this`inFlightFences, this`imageAvailableSemaphores, this`currentFrame, this`log
      ensures Valid()
      ensures imagesInFlight == old(imagesInFlight)[imageIndex := Some(old(currentFrame))]
      ensures inFlightFences ==
        AfterImageWait(old(inFlightFences), old(imagesInFlight)[imageIndex])[old(currentFrame) := Fence(false)]
      ensures submitResult != Success ==>
        && r == Failure(SubmitFailed)
        && currentFrame == old(currentFrame)
        && imageAvailableSemaphores == old(imageAvailableSemaphores)
        && log == old(log) + ImageWaitEvents(old(inFlightFences), old(imagesInFlight)[imageIndex])
                           + [ResetFence(old(currentFrame))]
      ensures submitResult == Success ==>
        && r == Ok(presentResult)
        && currentFrame == (old(currentFrame) + 1) % MAX_FRAMES_IN_FLIGHT
        && imageAvailableSemaphores == old(imageAvailableSemaphores)[old(currentFrame) := Semaphore(false)]
        && log == old(log) + ImageWaitEvents(old(inFlightFences), old(imagesInFlight)[imageIndex])
                           + [ResetFence(old(currentFrame)),
                              SubmitWork(buffer, old(currentFrame)),
                              PresentImage(old(currentFrame), imageIndex)]
    {
      var guard := imagesInFlight[imageIndex];
      log := log + ImageWaitEvents(inFlightFences, guard);
      inFlightFences := AfterImageWait(inFlightFences, guard);
      imagesInFlight := imagesInFlight[imageIndex := Some(currentFrame)];

      log := log + [ResetFence(currentFrame)];
      inFlightFences := inFlightFences[currentFrame := Fence(false)];
      if submitResult != Success {
        return Failure(SubmitFailed);
      }
      imageAvailableSemaphores := imageAvailableSemaphores[currentFrame := Semaphore(false)];
      log := log + [SubmitWork(buffer, currentFrame), PresentImage(currentFrame, imageIndex)];

      currentFrame := (currentFrame + 1) % MAX_FRAMES_IN_FLIGHT;
      r := Ok(presentResult);
    }
  }

  /** compareSwapFormats is an equivalence: reflexive, symmetric and transitive. */
  lemma CompareSwapFormatsIsEquivalence(a: SwapChain, b: SwapChain, c: SwapChain)
    ensures a.CompareSwapFormats(a)
    ensures a.CompareSwapFormats(b) == b.CompareSwapFormats(a)
    ensures a.CompareSwapFormats(b) && b.CompareSwapFormats(c) ==> a.CompareSwapFormats(c)
  {
  }
}
