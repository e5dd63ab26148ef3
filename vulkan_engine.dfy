/** The VulkanEngine object of VulkanEngine.h and its frame loop (drawFrame
    of main.cpp): the fields the core reads and writes, the ghost state of
    the fences, and the invariant that ties the image-fence table to the
    calls made so far. */
module VulkanEngine {
  import opened Vk
  import opened EngineTypes
  import opened FrameProtocol

  /** A queue obtained with vkGetDeviceQueue: the device, the family and the
      index within the family. */
  datatype Queue = NoQueue | Queue(device: Handle, family: nat, index: nat)

  /** A command recorded into a command buffer by createCommandBuffers. The
      clear colour (floating point) is left out. */
  datatype Command =
    | BeginRenderPass(renderPass: Handle, framebuffer: Handle, offsetX: int, offsetY: int,
                      extent: Extent2D, clearValueCount: nat)
    | BindPipeline(pipeline: Handle)
    | Draw(vertexCount: nat, instanceCount: nat, firstVertex: nat, firstInstance: nat)
    | EndRenderPass

  class Engine {
    /** Fixed when the program is built (NDEBUG). */
    const enableValidationLayers: bool

    var instance: Handle
    var indices: QueueFamilyIndices
    var surface: Handle
    var physicalDevice: Handle
    var device: Handle
    var graphicsQueue: Queue
    var presentQueue: Queue

    var swapChain: Handle
    var swapChainImages: seq<Handle>
    var swapChainImageFormat: nat
    var swapChainExtent: Extent2D
    var swapChainImageViews: array<Handle>

    var swapChainFramebuffers: array<Handle>
    var commandPool: Handle
    var commandBuffers: array<Handle>
    /** What each command buffer holds once recorded. */
    ghost var recorded: seq<seq<Command>>

    var renderPass: Handle
    var graphicsPipeline: Handle

    var imageAvailableSemaphores: array<Handle>
    var renderFinishedSemaphores: array<Handle>
    var inFlightFences: array<Handle>
    /** imagesInFlight: per swapchain image, the fence of the frame that last
        claimed it, or NULL_HANDLE. */
    var imagesInFlight: array<Handle>
    var currentFrame: nat

    /** Fences the GPU has signaled, and fences guarding submitted work the
        GPU has not finished; any other fence is unsignaled with nothing to
        wait for. */
    ghost var signaled: set<Handle>
    ghost var pending: set<Handle>
    /** The frame-loop driver calls made so far. */
    ghost var trace: seq<Event>

    /** The member initialisers: physicalDevice null and currentFrame 0;
        every vector empty and both family indices absent. The handles the
        header leaves uninitialised (instance, surface, device, ...) start
        null, the queues NoQueue. */
    constructor (enableValidationLayers: bool)
      ensures this.enableValidationLayers == enableValidationLayers
      ensures physicalDevice == NULL_HANDLE && currentFrame == 0
      ensures instance == NULL_HANDLE && surface == NULL_HANDLE && device == NULL_HANDLE
      ensures graphicsQueue == NoQueue && presentQueue == NoQueue
      ensures swapChain == NULL_HANDLE && commandPool == NULL_HANDLE
      ensures renderPass == NULL_HANDLE && graphicsPipeline == NULL_HANDLE
      ensures indices == QueueFamilyIndices(None, None)
      ensures swapChainImages == [] && swapChainImageViews.Length == 0 && swapChainFramebuffers.Length == 0
      ensures commandBuffers.Length == 0 && recorded == []
      ensures imageAvailableSemaphores.Length == 0 && renderFinishedSemaphores.Length == 0
      ensures inFlightFences.Length == 0 && imagesInFlight.Length == 0
      ensures signaled == {} && pending == {} && trace == []
    {
      this.enableValidationLayers := enableValidationLayers;
      instance, surface, physicalDevice, device := NULL_HANDLE, NULL_HANDLE, NULL_HANDLE, NULL_HANDLE;
      indices := QueueFamilyIndices(None, None);
      graphicsQueue, presentQueue := NoQueue, NoQueue;
      swapChain, swapChainImages, swapChainImageFormat, swapChainExtent := NULL_HANDLE, [], 0, Extent2D(0, 0);
      swapChainImageViews := new Handle[0];
      swapChainFramebuffers := new Handle[0];
      commandPool := NULL_HANDLE;
      commandBuffers := new Handle[0];
      recorded := [];
      renderPass, graphicsPipeline := NULL_HANDLE, NULL_HANDLE;
      imageAvailableSemaphores := new Handle[0];
      renderFinishedSemaphores := new Handle[0];
      inFlightFences := new Handle[0];
      imagesInFlight := new Handle[0];
      currentFrame := 0;
      signaled, pending, trace := {}, {}, [];
    }

    /** What createSwapChain and initializePipeline leave behind; their bodies
        are not part of this model. */
    method AdoptSwapChain(chain: Handle, images: seq<Handle>, format: nat, extent: Extent2D,
                          pass: Handle, pipeline: Handle)
      modifies this`swapChain, this`swapChainImages, this`swapChainImageFormat, this`swapChainExtent,
               this`renderPass, this`graphicsPipeline
      ensures swapChain == chain && swapChainImages == images && swapChainImageFormat == format
      ensures swapChainExtent == extent && renderPass == pass && graphicsPipeline == pipeline
    {
      swapChain, swapChainImages, swapChainImageFormat, swapChainExtent := chain, images, format, extent;
      renderPass, graphicsPipeline := pass, pipeline;
    }

    /** The state the frame loop relies on and keeps:
        - K = MAX_FRAMES_IN_FLIGHT slots, each with a non-null fence, and the
          cursor on one of them;
        - one view, framebuffer, command buffer and table entry per image;
        - every table entry null or a slot fence, and equal to what the
          trace says (Owned), with no hazard in the trace;
        - only slot fences are pending, and none is both pending and signaled. */
    ghost predicate Valid()
      reads this, inFlightFences, imagesInFlight
    {
      && inFlightFences.Length == MAX_FRAMES_IN_FLIGHT
      && imageAvailableSemaphores.Length == MAX_FRAMES_IN_FLIGHT
      && renderFinishedSemaphores.Length == MAX_FRAMES_IN_FLIGHT
      && currentFrame < MAX_FRAMES_IN_FLIGHT
      && swapChainImageViews.Length == |swapChainImages|
      && swapChainFramebuffers.Length == |swapChainImages|
      && commandBuffers.Length == |swapChainImages|
      && imagesInFlight.Length == |swapChainImages|
      // the vectors are distinct objects
      && imagesInFlight != inFlightFences && imagesInFlight != imageAvailableSemaphores
      && imagesInFlight != commandBuffers
      && Consistent(trace, imagesInFlight[..], inFlightFences[..], signaled, pending)
    }

    /** Valid, and every slot fence is signaled or will be: no wait of the
        frame loop can block for ever. */
    ghost predicate Live()
      reads this, inFlightFences, imagesInFlight
    {
      && Valid()
      && AllLive(inFlightFences[..], signaled, pending)
    }

    /** The state createSyncObjects leaves behind is live: every fence
        signaled, none pending, every table entry null, no call made yet. */
    lemma InitialStateIsLive()
      requires inFlightFences.Length == MAX_FRAMES_IN_FLIGHT
      requires imageAvailableSemaphores.Length == MAX_FRAMES_IN_FLIGHT
      requires renderFinishedSemaphores.Length == MAX_FRAMES_IN_FLIGHT
      requires currentFrame < MAX_FRAMES_IN_FLIGHT
      requires swapChainImageViews.Length == swapChainFramebuffers.Length == commandBuffers.Length
               == imagesInFlight.Length == |swapChainImages|
      requires imagesInFlight != inFlightFences && imagesInFlight != imageAvailableSemaphores
      requires imagesInFlight != commandBuffers
      requires forall j :: 0 <= j < inFlightFences.Length ==> inFlightFences[j] != NULL_HANDLE
      requires forall i :: 0 <= i < imagesInFlight.Length ==> imagesInFlight[i] == NULL_HANDLE
      requires trace == [] && signaled == Elements(inFlightFences[..]) && pending == {}
      ensures Live()
    {
      assert imagesInFlight[..] == seq(imagesInFlight.Length, _ => NULL_HANDLE);
      InitialConsistent(imagesInFlight.Length, inFlightFences[..]);
    }

    /** drawFrame, for the image index the acquire returns and the result of
        the submit. A wait returns only on a signaled fence, so the frame can
        run only once the slot fence, and the image's previous fence if any,
        are signaled (what `Throttle` brings about). The submit waits on and
        signals the slot's image-available semaphore, and present waits on it
        as well. */
    method DrawFrame(imageIndex: nat, submitSucceeds: bool) returns (r: Outcome)
      requires Live()
      requires imageIndex < |swapChainImages|
      requires Waited(inFlightFences[currentFrame], imagesInFlight[imageIndex]) <= signaled
      modifies this`currentFrame, this`signaled, this`pending, this`trace, imagesInFlight
      ensures r == if submitSucceeds then Done else Fail(SubmitFailed)
      ensures currentFrame == if r.Done? then (old(currentFrame) + 1) % MAX_FRAMES_IN_FLIGHT else old(currentFrame)
      // the claim: only the acquired image's entry changes, to the slot fence
      ensures imagesInFlight[..] == old(imagesInFlight[..])[imageIndex := inFlightFences[old(currentFrame)]]
      ensures trace == old(trace) + FrameEvents(inFlightFences[old(currentFrame)],
                                                imageAvailableSemaphores[old(currentFrame)], imageIndex,
                                                old(imagesInFlight[imageIndex]), commandBuffers[imageIndex],
                                                submitSucceeds)
      // the reset unsignals the slot fence, and a successful submit makes it pending
      ensures var fence := inFlightFences[old(currentFrame)];
              && signaled == old(signaled) - {fence}
              && pending == old(pending) + (if submitSucceeds then {fence} else {})
      ensures Valid()
      ensures r.Done? ==> Live()
    {
      var fence := inFlightFences[currentFrame];
      var semaphore := imageAvailableSemaphores[currentFrame];
      ghost var table, fences := imagesInFlight[..], inFlightFences[..];
      FrameStep(trace, table, fences, signaled, pending, currentFrame, imageIndex,
                semaphore, commandBuffers[imageIndex], submitSucceeds);

      // throttle: the slot fence is signaled, so the wait returns
      // the acquire hands back imageIndex, to be signaled through `semaphore`
      var previous := imagesInFlight[imageIndex];
      // a non-null previous fence is signaled as well, so its wait returns
      imagesInFlight[imageIndex] := fence;
      assert imagesInFlight[..] == table[imageIndex := fence];

      var waitSemaphore := semaphore;
      var commandBuffer := commandBuffers[imageIndex];
      var signalSemaphore := semaphore;

      // the reset unsignals the slot fence; a successful submit makes it pending
      signaled := signaled - {fence};
      pending := pending + (if submitSucceeds then {fence} else {});
      trace := trace + FrameEvents(fence, semaphore, imageIndex, previous, commandBuffer, submitSucceeds);
      if !submitSucceeds {
        return Fail(SubmitFailed);
      }
      // present waits on signalSemaphore; its result is not looked at
      currentFrame := (currentFrame + 1) % MAX_FRAMES_IN_FLIGHT;
      r := Done;
    }

    /** The environment: the GPU finishes the work guarded by a pending fence. */
    ghost method GpuSignal(fence: Handle)
      requires Valid() && fence in pending
      modifies this`signaled, this`pending
      ensures signaled == old(signaled) + {fence} && pending == old(pending) - {fence}
      ensures Valid()
      ensures old(Live()) ==> Live()
    {
      signaled, pending := signaled + {fence}, pending - {fence};
    }

    /** The environment until fence f is signaled: the GPU finishes the
        work f guards, if it has not already. A fence of a live state is
        signaled or pending, so this always ends. */
    ghost method AwaitFence(f: Handle)
      requires Live() && f in Elements(inFlightFences[..])
      modifies this`signaled, this`pending
      ensures f in signaled
      ensures signaled == old(signaled) + {f} && pending == old(pending) - {f}
      ensures Live()
    {
      var j :| 0 <= j < inFlightFences.Length && inFlightFences[j] == f;
      if f in pending {
        GpuSignal(f);
      }
    }

    /** The two waits at the start of drawFrame never block for ever: from a
        live state the GPU can signal the slot fence and the image's previous
        fence, after which DrawFrame may run; the table, the trace and the
        cursor are untouched. */
    ghost method Throttle(imageIndex: nat)
      requires Live() && imageIndex < |swapChainImages|
      modifies this`signaled, this`pending
      ensures Live()
      ensures Waited(inFlightFences[currentFrame], imagesInFlight[imageIndex]) <= signaled
      ensures old(signaled) <= signaled && pending <= old(pending)
    {
      var fence, previous := inFlightFences[currentFrame], imagesInFlight[imageIndex];
      assert fence == inFlightFences[..][currentFrame];
      AwaitFence(fence);
      if previous != NULL_HANDLE {
        assert previous in inFlightFences[..];
        AwaitFence(previous);
      }
    }

    /** At most MAX_FRAMES_IN_FLIGHT frames have work on the GPU at once. */
    lemma InFlightBound()
      requires Valid()
      ensures |pending| <= MAX_FRAMES_IN_FLIGHT
    {
      ElementsAtMost(inFlightFences[..]);
      var slots := Elements(inFlightFences[..]);
      assert slots == pending + (slots - pending);
    }
  }
}
