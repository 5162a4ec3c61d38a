/** Abstract values standing in for the Vulkan and GLFW objects that the
    frame-presentation core consumes. Handles become small values, results
    of foreign calls become parameters of the modelled operations. */
module VulkanTypes {

  const UINT32_MAX: int := 0xFFFF_FFFF

  /** C++ `uint32_t`. */
  newtype uint32 = x: int | 0 <= x <= 0xFFFF_FFFF

  /** C++ `int` (32 bits on every platform the client targets). */
  newtype int32 = x: int | -0x8000_0000 <= x < 0x8000_0000

  /** `static_cast<uint32_t>` of a 32-bit signed value: two's complement
      reinterpretation, so a negative value wraps around to a large one. */
  function ToUint32(x: int32): (r: uint32)
    ensures 0 <= x ==> r as int == x as int
    ensures x < 0 ==> r as int == x as int + 0x1_0000_0000
  {
    if x < 0 then (x as int + 0x1_0000_0000) as uint32 else x as int as uint32
  }

  /** `VkExtent2D`. */
  datatype Extent = Extent(width: uint32, height: uint32)

  /** `VkFormat` and `VkColorSpaceKHR`, kept as their numeric codes. */
  type Format = nat
  type ColorSpace = nat

  const FORMAT_B8G8R8A8_SRGB: Format := 50
  const FORMAT_D32_SFLOAT: Format := 126
  const FORMAT_D24_UNORM_S8_UINT: Format := 129
  const FORMAT_D32_SFLOAT_S8_UINT: Format := 130
  const COLOR_SPACE_SRGB_NONLINEAR: ColorSpace := 0

  /** A depth format the device can pick: one of the three candidates
      `findDepthFormat` offers it. */
  type DepthFormat = f: Format
    | f == FORMAT_D32_SFLOAT || f == FORMAT_D32_SFLOAT_S8_UINT || f == FORMAT_D24_UNORM_S8_UINT
    witness FORMAT_D32_SFLOAT

  /** `VkSurfaceFormatKHR`. */
  datatype SurfaceFormat = SurfaceFormat(format: Format, colorSpace: ColorSpace)

  /** Codes of present modes other than the four core ones
      (IMMEDIATE 0, MAILBOX 1, FIFO 2, FIFO_RELAXED 3). */
  type ExtensionPresentModeCode = c: nat | c > 3 witness 4

  /** `VkPresentModeKHR`; extension modes are kept by their code, which is
      never that of a named mode. */
  datatype PresentMode = Immediate | Mailbox | Fifo | FifoRelaxed | OtherPresentMode(code: ExtensionPresentModeCode)

  /** Codes of results other than VK_SUCCESS (0), VK_SUBOPTIMAL_KHR
      (1000001003) and VK_ERROR_OUT_OF_DATE_KHR (-1000001004). */
  type OtherResultCode = c: int | c != 0 && c != 1000001003 && c != -1000001004 witness -1

  /** `VkResult`, reduced to the codes the core distinguishes; every other
      code is kept by its value, which is never that of a named result. */
  datatype VkResult = Success | Suboptimal | OutOfDate | OtherResult(code: OtherResultCode)

  /** The two results of `vkAcquireNextImageKHR` for which an image was acquired
      (and its semaphore will be signalled). */
  predicate Acquired(r: VkResult) {
    r == Success || r == Suboptimal
  }

  /** What `vkAcquireNextImageKHR` reports: its result and, when an image was
      acquired, the index of that image. */
  datatype AcquireReply = AcquireReply(result: VkResult, imageIndex: nat)

  /** The part of `VkSurfaceCapabilitiesKHR` that swap-chain negotiation reads. */
  datatype SurfaceCapabilities = SurfaceCapabilities(
    minImageCount: uint32,
    maxImageCount: uint32,
    currentExtent: Extent,
    minImageExtent: Extent,
    maxImageExtent: Extent)

  /** `SwapChainSupportDetails` as reported by the device for its surface. */
  datatype SwapChainSupport = SwapChainSupport(
    capabilities: SurfaceCapabilities,
    formats: seq<SurfaceFormat>,
    presentModes: seq<PresentMode>)

  /** `QueueFamilyIndices`. */
  datatype QueueFamilies = QueueFamilies(graphicsFamily: uint32, presentFamily: uint32)

  /** What the device answers while a swap chain is being built: the surface
      support query, the queue families, the depth format its
      `findSupportedFormat` picks, and the number of images that
      `vkGetSwapchainImagesKHR` reports for the new chain. */
  datatype DeviceInfo = DeviceInfo(
    support: SwapChainSupport,
    families: QueueFamilies,
    depthFormat: DepthFormat,
    grantedImageCount: nat)

  /** A `VkCommandBuffer` handle: the allocation it came from and its position in it. */
  datatype CommandBuffer = CommandBuffer(allocation: nat, index: nat)

  /** The `std::runtime_error`s the core throws, one per message. */
  datatype Error =
    | AcquireFailed          // "failed to acquire swap chain image"
    | BeginRecordingFailed   // "failed to begin recording command buffer"
    | EndRecordingFailed     // "failed to record command buffer"
    | SubmitFailed           // "failed to submit draw command buffer!"
    | PresentFailed          // "failed to present swap chain image"
    | FormatChanged          // "swap chain image(or depth) format has changed"

  datatype Option<+T> = None | Some(value: T)

  datatype Result<+T> = Ok(value: T) | Failure(error: Error)

  datatype Outcome = Pass | Fail(error: Error)

  function Max(a: uint32, b: uint32): uint32 { if a < b then b else a }

  function Min(a: uint32, b: uint32): uint32 { if a < b then a else b }
}
