/** Driver-level vocabulary shared by every module: opaque handles, the
    errors the C++ code throws, and the driver's answers to creation calls. */
module Vk {

  /** An opaque Vulkan handle; NULL_HANDLE plays the role of VK_NULL_HANDLE. */
  type Handle = nat
  const NULL_HANDLE: Handle := 0

  /** What a successful vkCreate* / vkAllocate* call hands back: never null. */
  type LiveHandle = h: Handle | h != NULL_HANDLE witness 1

  datatype Option<+T> = None | Some(value: T)

  /** One constructor per `throw std::runtime_error(...)` of the core, plus
      the exception `std::optional::value()` raises on an empty optional. */
  datatype Error =
    | SurfaceCreationFailed          // "failed to create window surface!"
    | NoVulkanGpu                    // "failed to find GPUs with Vulkan support!"
    | NoSuitableGpu                  // "failed to find a suitable GPU!"
    | BadOptionalAccess              // std::bad_optional_access
    | LogicalDeviceCreationFailed    // "failed to create logical device!"
    | ValidationLayersUnavailable    // "validation layers requested, but not available!"
    | InstanceCreationFailed         // "failed to create instance!"
    | ImageViewCreationFailed        // "failed to create image views!"
    | FramebufferCreationFailed      // "failed to create framebuffer!"
    | CommandPoolCreationFailed      // "failed to create command pool!"
    | CommandBufferAllocationFailed  // "failed to allocate command buffers!"
    | CommandBufferBeginFailed       // "failed to begin recording command buffer!"
    | CommandBufferRecordFailed      // "failed to record command buffer!"
    | SyncObjectCreationFailed       // "failed to create semaphores for a frame!"
    | SubmitFailed                   // "failed to submit draw command buffer!"

  /** A void C++ function that may throw. */
  datatype Outcome = Done | Fail(error: Error)

  /** Two void calls in sequence: the second runs only when the first
      returns normally, so the pair throws the first exception raised. */
  function Then(first: Outcome, next: Outcome): (r: Outcome)
    ensures r.Done? <==> first.Done? && next.Done?
    ensures first.Fail? ==> r == first
    ensures first.Done? ==> r == next
  {
    if first.Done? then next else first
  }

  /** A value-returning C++ function that may throw. */
  datatype Result<+T> = Ok(value: T) | Err(error: Error)

  /** The 2D extent of the swapchain images. */
  datatype Extent2D = Extent2D(width: nat, height: nat)

  /** VK_COMMAND_BUFFER_LEVEL_PRIMARY */
  const COMMAND_BUFFER_LEVEL_PRIMARY: nat := 0

  datatype ImageViewCreateInfo = ImageViewCreateInfo(image: Handle, format: nat)

  datatype FramebufferCreateInfo = FramebufferCreateInfo(
    renderPass: Handle, attachments: seq<Handle>, width: nat, height: nat, layers: nat)

  datatype CommandPoolCreateInfo = CommandPoolCreateInfo(queueFamilyIndex: nat, flags: nat)

  datatype CommandBufferAllocateInfo = CommandBufferAllocateInfo(
    commandPool: Handle, level: nat, commandBufferCount: nat)

  /** The flags of VkFenceCreateInfo: only VK_FENCE_CREATE_SIGNALED_BIT is used. */
  datatype FenceCreateInfo = FenceCreateInfo(createSignaled: bool)

  /** Which of the three per-slot vectors a semaphore is created for. */
  datatype SemaphoreRole = ImageAvailable | RenderFinished

  /** The driver's answers to the creation calls of the core. Each is a
      function of what the call is given; the sync-object calls also receive
      the frame slot they are made for, so that slots may get distinct
      handles. */
  datatype Driver = Driver(
    createImageView: ImageViewCreateInfo -> Option<LiveHandle>,
    createFramebuffer: FramebufferCreateInfo -> Option<LiveHandle>,
    createCommandPool: CommandPoolCreateInfo -> Option<LiveHandle>,
    allocateCommandBuffers: CommandBufferAllocateInfo -> Option<seq<LiveHandle>>,
    beginCommandBuffer: Handle -> bool,
    endCommandBuffer: Handle -> bool,
    createSemaphore: (SemaphoreRole, nat) -> Option<LiveHandle>,
    createFence: (FenceCreateInfo, nat) -> Option<LiveHandle>)
  {
    /** vkAllocateCommandBuffers writes exactly commandBufferCount handles. */
    ghost predicate WellFormed() {
      forall info :: allocateCommandBuffers(info).Some? ==>
        |allocateCommandBuffers(info).value| == info.commandBufferCount
    }
  }
}
