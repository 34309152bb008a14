/**
  VulkanRenderer: the object that owns the swapchain images, the framebuffers and command
  buffers made for them, the frame ring's synchronisation objects and the mesh, and that
  draws frames and tears everything down. Native calls are replaced by their answers, passed
  in as arguments; the calls that matter for ordering are returned.
 */
module VulkanRenderer {
  import opened Wrappers
  import opened VkTypes
  import opened Utilities
  import opened Swapchain
  import opened DeviceSelection
  import opened FrameSync
  import T = Teardown
  import M = Mesh

  /** The runtime errors Init catches, by the step that throws them, in Init's order. */
  datatype InitError =
    | InstanceCreationFailed
    | DebugMessengerCreationFailed
    | SurfaceCreationFailed
    | DeviceSelectionFailed(deviceError: DeviceError)
    | LogicalDeviceCreationFailed
    | MeshCreationFailed(meshError: M.MeshError)
    | SwapchainCreationFailed
    | ImageViewCreationFailed
    | RenderPassCreationFailed
    | PipelineCreationFailed
    | FramebufferCreationFailed
    | CommandPoolCreationFailed
    | CommandBufferAllocationFailed
    | CommandRecordingFailed
    | SynchronizationCreationFailed
  {
    /** Thrown by the steps before device selection: instance, debug messenger, surface. */
    predicate BeforeDeviceSelection() {
      InstanceCreationFailed? || DebugMessengerCreationFailed? || SurfaceCreationFailed?
    }

    /** Thrown by the steps after the mesh, from the swapchain to the synchronisation objects. */
    predicate AfterMesh() {
      !BeforeDeviceSelection() && !DeviceSelectionFailed? && !LogicalDeviceCreationFailed? && !MeshCreationFailed?
    }
  }

  /**
    What CreateInstance depends on: the validation-layer check (which passes when validation
    is off), the extensions GLFW and the debug utilities need, the extensions the instance
    reports, and the result of vkCreateInstance.
   */
  datatype InstanceCreation = InstanceCreation(
    layersAvailable: bool,
    requiredExtensions: seq<string>,
    availableExtensions: seq<string>,
    created: bool)
  {
    predicate Ok() {
      layersAvailable && CheckInstanceExtensionSupport(requiredExtensions, availableExtensions) && created
    }
  }

  /** Results of CreateGraphicsPipeline's steps: reading the two SPIR-V files (ReadFile),
      the two shader modules, the pipeline layout and the pipeline. */
  datatype PipelineCreation = PipelineCreation(
    vertexShaderRead: bool,
    fragmentShaderRead: bool,
    vertexModuleCreated: bool,
    fragmentModuleCreated: bool,
    layoutCreated: bool,
    pipelineCreated: bool)
  {
    predicate AllOk() {
      vertexShaderRead && fragmentShaderRead && vertexModuleCreated && fragmentModuleCreated
      && layoutCreated && pipelineCreated
    }
  }

  /** The fields of VkFramebufferCreateInfo that vary: the single attachment and the size. */
  datatype FramebufferCreateInfo = FramebufferCreateInfo(attachment: Handle, width: uint32, height: uint32, layers: nat)

  /** Results of vkCreateSemaphore (image available, render finished) and vkCreateFence for a slot. */
  datatype SyncCreation = SyncCreation(imageAvailableOk: bool, renderFinishedOk: bool, fenceOk: bool)
  {
    predicate AllOk() {
      imageAvailableOk && renderFinishedOk && fenceOk
    }
  }

  /** Results of vkBeginCommandBuffer and vkEndCommandBuffer for one command buffer. */
  datatype RecordResult = RecordResult(beginOk: bool, endOk: bool)
  {
    predicate AllOk() {
      beginOk && endOk
    }
  }

  /** What one command buffer holds after recording: a render pass over the whole framebuffer
      that binds the mesh's vertex buffer at offset 0 and draws its vertices once. */
  datatype Recording = Recording(
    commandBuffer: Handle,
    framebuffer: Handle,
    renderArea: Extent2D,
    vertexBuffer: Handle,
    vertexOffset: nat,
    vertexCount: uint32,
    instanceCount: nat)

  /** std::vector::resize: keep the first n elements, pad with value-initialised ones. */
  function Resize<X>(s: seq<X>, n: nat, fill: X): (r: seq<X>)
    ensures |r| == n
    ensures forall i :: 0 <= i < n && i < |s| ==> r[i] == s[i]
    ensures forall i :: |s| <= i < n ==> r[i] == fill
  {
    if n <= |s| then s[..n] else s + seq(n - |s|, _ => fill)
  }

  // The quad Init uploads: two triangles, positions and colours as IEEE-754 single bit patterns.
  const POS_04: bv32 := 0x3ECC_CCCD   // 0.4f
  const NEG_04: bv32 := 0xBECC_CCCD   // -0.4f
  const ZERO: bv32 := 0x0000_0000     // 0.0f
  const ONE: bv32 := 0x3F80_0000      // 1.0f

  const MeshVertices: seq<Vertex> := [
    Vertex(Vec3(POS_04, NEG_04, ZERO), Vec3(ONE, ZERO, ZERO)),
    Vertex(Vec3(POS_04, POS_04, ZERO), Vec3(ZERO, ONE, ZERO)),
    Vertex(Vec3(NEG_04, POS_04, ZERO), Vec3(ZERO, ZERO, ONE)),
    Vertex(Vec3(NEG_04, POS_04, ZERO), Vec3(ZERO, ZERO, ONE)),
    Vertex(Vec3(NEG_04, NEG_04, ZERO), Vec3(ONE, ONE, ZERO)),
    Vertex(Vec3(POS_04, NEG_04, ZERO), Vec3(ONE, ZERO, ZERO))]

  /** Everything the driver and the window system answer during Init. */
  datatype InitDriver = InitDriver(
    instance: InstanceCreation,
    debugMessengerCreated: bool,
    surfaceCreated: bool,
    enumerateResult: VkResult,
    devices: seq<PhysicalDevice>,
    logicalDeviceCreated: bool,
    framebufferWidth: int,
    framebufferHeight: int,
    bufferDriver: M.BufferDriver,
    swapchainCreated: bool,
    images: seq<Handle>,
    imageViews: seq<Option<Handle>>,
    renderPassCreated: bool,
    pipeline: PipelineCreation,
    framebufferResults: seq<Option<Handle>>,
    commandPoolCreated: bool,
    allocatedCommandBuffers: Option<seq<Handle>>,
    recordResults: seq<RecordResult>,
    syncResults: seq<SyncCreation>)
  {
    /** One answer per call the renderer makes: a view and a framebuffer per image, a command
        buffer per framebuffer, a recording per command buffer, a creation per frame slot. */
    predicate Consistent() {
      && |bufferDriver.memoryTypes| <= VK_MAX_MEMORY_TYPES
      && |imageViews| == |images|
      && |framebufferResults| == |images|
      && (allocatedCommandBuffers.Some? ==> |allocatedCommandBuffers.value| == |images|)
      && |recordResults| == |images|
      && |syncResults| == MAX_FRAME_DRAWS
    }
  }

  /**
    The error of the first of Init's steps before device selection that throws for these
    driver answers, None when they all succeed: the instance (debugMessengerCreated is true
    when validation is off, since SetupDebugMessenger then returns at once), the debug
    messenger and the surface, in that order.
   */
  function SetupFailure(driver: InitDriver): (r: Option<InitError>)
    ensures r.None? <==> driver.instance.Ok() && driver.debugMessengerCreated && driver.surfaceCreated
    ensures r == Some(InstanceCreationFailed) <==> !driver.instance.Ok()
    ensures r.Some? ==> r.value.BeforeDeviceSelection()
  {
    if !driver.instance.Ok() then Some(InstanceCreationFailed)
    else if !driver.debugMessengerCreated then Some(DebugMessengerCreationFailed)
    else if !driver.surfaceCreated then Some(SurfaceCreationFailed)
    else None
  }

  /**
    The error of the first of Init's steps after the mesh that throws for these driver answers,
    None when they all succeed: the swapchain and its image views, the render pass, the
    pipeline, the framebuffers, the command pool, the command-buffer allocation, the
    recording and the synchronisation objects, in that order.
   */
  function RenderingFailure(driver: InitDriver): (r: Option<InitError>)
    ensures r.None? <==>
      && driver.swapchainCreated
      && (forall i :: 0 <= i < |driver.imageViews| ==> driver.imageViews[i].Some?)
      && driver.renderPassCreated
      && driver.pipeline.AllOk()
      && (forall i :: 0 <= i < |driver.framebufferResults| ==> driver.framebufferResults[i].Some?)
      && driver.commandPoolCreated
      && driver.allocatedCommandBuffers.Some?
      && (forall i :: 0 <= i < |driver.recordResults| ==> driver.recordResults[i].AllOk())
      && (forall i :: 0 <= i < |driver.syncResults| ==> driver.syncResults[i].AllOk())
    ensures r == Some(SwapchainCreationFailed) <==> !driver.swapchainCreated
    ensures r.Some? ==> r.value.AfterMesh()
  {
    if !driver.swapchainCreated then Some(SwapchainCreationFailed)
    else if exists i :: 0 <= i < |driver.imageViews| && driver.imageViews[i].None? then
      Some(ImageViewCreationFailed)
    else if !driver.renderPassCreated then Some(RenderPassCreationFailed)
    else if !driver.pipeline.AllOk() then Some(PipelineCreationFailed)
    else if exists i :: 0 <= i < |driver.framebufferResults| && driver.framebufferResults[i].None? then
      Some(FramebufferCreationFailed)
    else if !driver.commandPoolCreated then Some(CommandPoolCreationFailed)
    else if driver.allocatedCommandBuffers.None? then Some(CommandBufferAllocationFailed)
    else if exists i :: 0 <= i < |driver.recordResults| && !driver.recordResults[i].AllOk() then
      Some(CommandRecordingFailed)
    else if exists i :: 0 <= i < |driver.syncResults| && !driver.syncResults[i].AllOk() then
      Some(SynchronizationCreationFailed)
    else None
  }

  /**
    The error of the first step of Init that throws for these driver answers, None when every
    step succeeds: the steps of SetupFailure, device selection, the logical device, the
    mesh's vertex buffer, then the steps of RenderingFailure.
   */
  function FirstFailure(driver: InitDriver): (r: Option<InitError>)
    requires driver.Consistent()
    ensures r.None? <==>
      && SetupFailure(driver).None?
      && (exists i :: 0 <= i < |driver.devices| && CheckDeviceSuitable(driver.devices[i]))
      && driver.enumerateResult == VK_SUCCESS
      && driver.logicalDeviceCreated
      && M.BufferCreationError(driver.bufferDriver).None?
      && RenderingFailure(driver).None?
    ensures SetupFailure(driver).Some? ==> r == SetupFailure(driver)
    ensures r.Some? && r.value.DeviceSelectionFailed? <==>
      SetupFailure(driver).None? && SelectPhysicalDevice(driver.enumerateResult, driver.devices).Failure?
    ensures r == Some(LogicalDeviceCreationFailed) <==>
      && SetupFailure(driver).None?
      && SelectPhysicalDevice(driver.enumerateResult, driver.devices).Success?
      && !driver.logicalDeviceCreated
    ensures r.Some? && r.value.MeshCreationFailed? <==>
      && SetupFailure(driver).None?
      && SelectPhysicalDevice(driver.enumerateResult, driver.devices).Success?
      && driver.logicalDeviceCreated
      && M.BufferCreationError(driver.bufferDriver).Some?
  {
    var selected := SelectPhysicalDevice(driver.enumerateResult, driver.devices);
    if SetupFailure(driver).Some? then SetupFailure(driver)
    else if selected.Failure? then Some(DeviceSelectionFailed(selected.error))
    else if !driver.logicalDeviceCreated then Some(LogicalDeviceCreationFailed)
    else if M.BufferCreationError(driver.bufferDriver).Some? then
      Some(MeshCreationFailed(M.BufferCreationError(driver.bufferDriver).value))
    else RenderingFailure(driver)
  }

  class VulkanRenderer {
    var swapChainImageFormat: Format
    var swapChainExtent: Extent2D
    var swapChainImages: seq<SwapChainImage>
    var swapChainFramebuffers: seq<Handle>
    var commandBuffers: seq<Handle>
    var imageAvailable: seq<SyncState>
    var renderFinished: seq<SyncState>
    var drawFences: seq<SyncState>
    var currentFrame: nat
    var firstMesh: M.Mesh
    /** Frames presented since Init. */
    ghost var framesPresented: nat

    function Ring(): FrameRing
      reads this
    {
      FrameRing(currentFrame, drawFences, imageAvailable, renderFinished)
    }

    /** As constructed, before Init. */
    ghost predicate Unstarted()
      reads this
    {
      && swapChainImages == [] && swapChainFramebuffers == [] && commandBuffers == []
      && imageAvailable == [] && renderFinished == [] && drawFences == []
      && currentFrame == 0 && framesPresented == 0
    }

    /**
      Images, framebuffers and command buffers are 1:1:1, the frame ring has one fence and two
      semaphores per slot, and the ring index counts presented frames modulo the ring size.
     */
    ghost predicate Valid()
      reads this
    {
      && |swapChainFramebuffers| == |swapChainImages|
      && |commandBuffers| == |swapChainImages|
      && Ring().WellFormed()
      && currentFrame == framesPresented % MAX_FRAME_DRAWS
    }

    constructor ()
      ensures Unstarted()
      ensures swapChainImageFormat == VK_FORMAT_UNDEFINED
      ensures firstMesh.GetVertexCount() == 0
    {
      swapChainImageFormat := VK_FORMAT_UNDEFINED;
      swapChainExtent := Extent2D(0, 0);
      swapChainImages := [];
      swapChainFramebuffers := [];
      commandBuffers := [];
      imageAvailable := [];
      renderFinished := [];
      drawFences := [];
      currentFrame := 0;
      framesPresented := 0;
      firstMesh := new M.Mesh.Empty();
    }

    /**
      CreateSwapChain: negotiate format, mode, extent, image count and sharing from the
      chosen device's details, create the swapchain, record its format and extent, then for
      each image the swapchain returns create a view (CreateImageView) and append the pair,
      stopping at the first view that fails. imageViews[k] is what vkCreateImageView answers
      for image k.
     */
    method CreateSwapChain(details: SwapChainDetails, indices: QueueFamilyIndices,
                           framebufferWidth: int, framebufferHeight: int,
                           swapchainCreated: bool, images: seq<Handle>, imageViews: seq<Option<Handle>>)
      returns (outcome: Result<SwapchainCreateInfo, InitError>)
      requires |details.formats| > 0
      requires |imageViews| == |images|
      modifies this
      ensures !swapchainCreated ==> outcome == Failure(SwapchainCreationFailed) && unchanged(this)
      ensures swapchainCreated ==>
        var info := MakeSwapchainCreateInfo(details, indices, framebufferWidth, framebufferHeight);
        var made := |swapChainImages| - |old(swapChainImages)|;
        && swapChainImageFormat == info.surfaceFormat.format
        && swapChainExtent == info.imageExtent
        && 0 <= made <= |images|
        && swapChainImages[..|old(swapChainImages)|] == old(swapChainImages)
        && (forall k :: 0 <= k < made ==>
              imageViews[k].Some? && swapChainImages[|old(swapChainImages)| + k] == SwapChainImage(images[k], imageViews[k].value))
        && (outcome.Success? <==> forall k :: 0 <= k < |images| ==> imageViews[k].Some?)
        && (outcome.Success? ==> outcome.value == info && made == |images|)
        && (outcome.Failure? ==> outcome.error == ImageViewCreationFailed && made < |images| && imageViews[made].None?)
      ensures swapChainFramebuffers == old(swapChainFramebuffers) && commandBuffers == old(commandBuffers)
      ensures Ring() == old(Ring()) && firstMesh == old(firstMesh) && framesPresented == old(framesPresented)
    {
      var info := MakeSwapchainCreateInfo(details, indices, framebufferWidth, framebufferHeight);
      if !swapchainCreated {
        return Failure(SwapchainCreationFailed);
      }
      swapChainImageFormat := info.surfaceFormat.format;
      swapChainExtent := info.imageExtent;

      var i := 0;
      while i < |images|
        invariant 0 <= i <= |images|
        invariant |swapChainImages| == |old(swapChainImages)| + i
        invariant swapChainImages[..|old(swapChainImages)|] == old(swapChainImages)
        invariant forall k :: 0 <= k < i ==>
          imageViews[k].Some? && swapChainImages[|old(swapChainImages)| + k] == SwapChainImage(images[k], imageViews[k].value)
        invariant swapChainFramebuffers == old(swapChainFramebuffers) && commandBuffers == old(commandBuffers)
        invariant Ring() == old(Ring()) && firstMesh == old(firstMesh) && framesPresented == old(framesPresented)
        invariant swapChainImageFormat == info.surfaceFormat.format && swapChainExtent == info.imageExtent
      {
        if imageViews[i].None? {
          return Failure(ImageViewCreationFailed);
        }
        swapChainImages := swapChainImages + [SwapChainImage(images[i], imageViews[i].value)];
        i := i + 1;
      }
      outcome := Success(info);
    }

    /**
      CreateFramebuffers: resize the framebuffer list to the image count, then create
      framebuffer i on image view i at the swapchain extent, stopping at the first failure.
      results[i] is what vkCreateFramebuffer answers for image i.
     */
    method CreateFramebuffers(results: seq<Option<Handle>>)
      returns (outcome: Result<(), InitError>, infos: seq<FramebufferCreateInfo>)
      requires |results| == |swapChainImages|
      modifies this
      ensures swapChainImages == old(swapChainImages)
      ensures |swapChainFramebuffers| == |swapChainImages| && |infos| <= |results|
      ensures outcome.Success? <==> forall i :: 0 <= i < |results| ==> results[i].Some?
      ensures outcome.Success? ==>
        && |infos| == |results|
        && forall i :: 0 <= i < |results| ==> results[i] == Some(swapChainFramebuffers[i])
      ensures outcome.Failure? ==>
        && outcome.error == FramebufferCreationFailed
        && 0 < |infos| <= |results| && results[|infos| - 1].None?
        && forall i :: 0 <= i < |infos| - 1 ==> results[i] == Some(swapChainFramebuffers[i])
      ensures forall i :: 0 <= i < |infos| ==>
        infos[i] == FramebufferCreateInfo(swapChainImages[i].imageView, swapChainExtent.width, swapChainExtent.height, 1)
      ensures commandBuffers == old(commandBuffers)
      ensures swapChainExtent == old(swapChainExtent) && swapChainImageFormat == old(swapChainImageFormat)
      ensures Ring() == old(Ring()) && firstMesh == old(firstMesh) && framesPresented == old(framesPresented)
    {
      swapChainFramebuffers := Resize(swapChainFramebuffers, |swapChainImages|, NULL_HANDLE);
      infos := [];
      var i := 0;
      while i < |swapChainFramebuffers|
        invariant 0 <= i <= |swapChainFramebuffers| == |swapChainImages|
        invariant swapChainImages == old(swapChainImages)
        invariant |infos| == i
        invariant forall k :: 0 <= k < i ==> results[k] == Some(swapChainFramebuffers[k])
        invariant forall k :: 0 <= k < i ==>
          infos[k] == FramebufferCreateInfo(swapChainImages[k].imageView, swapChainExtent.width, swapChainExtent.height, 1)
        invariant swapChainImages == old(swapChainImages) && commandBuffers == old(commandBuffers)
        invariant swapChainExtent == old(swapChainExtent) && swapChainImageFormat == old(swapChainImageFormat)
        invariant Ring() == old(Ring()) && firstMesh == old(firstMesh) && framesPresented == old(framesPresented)
      {
        infos := infos + [FramebufferCreateInfo(swapChainImages[i].imageView, swapChainExtent.width, swapChainExtent.height, 1)];
        if results[i].None? {
          return Failure(FramebufferCreationFailed), infos;
        }
        swapChainFramebuffers := swapChainFramebuffers[i := results[i].value];
        i := i + 1;
      }
      outcome := Success(());
    }

    /**
      CreateCommandBuffers: one primary command buffer per framebuffer, allocation in one call;
      allocation is what vkAllocateCommandBuffers writes, None when it fails.
     */
    method CreateCommandBuffers(allocation: Option<seq<Handle>>) returns (outcome: Result<(), InitError>)
      requires allocation.Some? ==> |allocation.value| == |swapChainFramebuffers|
      modifies this
      ensures |commandBuffers| == |swapChainFramebuffers|
      ensures outcome.Success? <==> allocation.Some?
      ensures allocation.Some? ==> commandBuffers == allocation.value
      ensures allocation.None? ==> outcome == Failure(CommandBufferAllocationFailed)
      ensures swapChainImages == old(swapChainImages) && swapChainFramebuffers == old(swapChainFramebuffers)
      ensures swapChainExtent == old(swapChainExtent) && swapChainImageFormat == old(swapChainImageFormat)
      ensures Ring() == old(Ring()) && firstMesh == old(firstMesh) && framesPresented == old(framesPresented)
    {
      commandBuffers := Resize(commandBuffers, |swapChainFramebuffers|, NULL_HANDLE);
      if allocation.None? {
        return Failure(CommandBufferAllocationFailed);
      }
      commandBuffers := allocation.value;
      outcome := Success(());
    }

    /**
      CreateSynchronization: resize the three lists to MAX_FRAME_DRAWS, then per slot create
      the image-available semaphore, the render-finished semaphore and a fence created
      signaled, stopping at the first failure. results[i] holds the three answers for slot i.
     */
    method CreateSynchronization(results: seq<SyncCreation>) returns (outcome: Result<(), InitError>)
      requires |results| == MAX_FRAME_DRAWS
      modifies this
      ensures |imageAvailable| == |renderFinished| == |drawFences| == MAX_FRAME_DRAWS
      ensures outcome.Success? <==> forall i :: 0 <= i < MAX_FRAME_DRAWS ==> results[i].AllOk()
      ensures outcome.Success? ==>
        && drawFences == InitialRing().drawFences
        && imageAvailable == InitialRing().imageAvailable
        && renderFinished == InitialRing().renderFinished
      ensures outcome.Failure? ==> outcome.error == SynchronizationCreationFailed
      ensures outcome.Failure? && |old(drawFences)| == 0 ==> !Ring().Ready()
      ensures swapChainImages == old(swapChainImages) && swapChainFramebuffers == old(swapChainFramebuffers)
      ensures commandBuffers == old(commandBuffers) && currentFrame == old(currentFrame)
      ensures swapChainExtent == old(swapChainExtent) && swapChainImageFormat == old(swapChainImageFormat)
      ensures firstMesh == old(firstMesh) && framesPresented == old(framesPresented)
    {
      imageAvailable := Resize(imageAvailable, MAX_FRAME_DRAWS, Unsignaled);
      renderFinished := Resize(renderFinished, MAX_FRAME_DRAWS, Unsignaled);
      drawFences := Resize(drawFences, MAX_FRAME_DRAWS, Unsignaled);
      var i := 0;
      while i < MAX_FRAME_DRAWS
        invariant 0 <= i <= MAX_FRAME_DRAWS
        invariant |imageAvailable| == |renderFinished| == |drawFences| == MAX_FRAME_DRAWS
        invariant forall k :: 0 <= k < i ==> results[k].AllOk()
        invariant forall k :: 0 <= k < i ==>
          drawFences[k] == Signaled && imageAvailable[k] == Unsignaled && renderFinished[k] == Unsignaled
        invariant |old(drawFences)| == 0 ==> forall k :: i <= k < MAX_FRAME_DRAWS ==> drawFences[k] == Unsignaled
        invariant swapChainImages == old(swapChainImages) && swapChainFramebuffers == old(swapChainFramebuffers)
        invariant commandBuffers == old(commandBuffers) && currentFrame == old(currentFrame)
        invariant swapChainExtent == old(swapChainExtent) && swapChainImageFormat == old(swapChainImageFormat)
        invariant firstMesh == old(firstMesh) && framesPresented == old(framesPresented)
      {
        assert |old(drawFences)| == 0 ==> Ring().drawFences[i] == Unsignaled;
        if !results[i].imageAvailableOk {
          return Failure(SynchronizationCreationFailed);
        }
        imageAvailable := imageAvailable[i := Unsignaled];
        if !results[i].renderFinishedOk {
          return Failure(SynchronizationCreationFailed);
        }
        renderFinished := renderFinished[i := Unsignaled];
        if !results[i].fenceOk {
          return Failure(SynchronizationCreationFailed);
        }
        drawFences := drawFences[i := Signaled];
        i := i + 1;
      }
      outcome := Success(());
    }

    /** Command buffer i records a render pass into framebuffer i, over the whole swapchain
        extent, drawing every vertex of the mesh's buffer once from offset 0. */
    function RecordingFor(i: nat): (r: Recording)
      requires i < |commandBuffers| && i < |swapChainFramebuffers|
      reads this, firstMesh
      ensures r.commandBuffer == commandBuffers[i] && r.framebuffer == swapChainFramebuffers[i]
      ensures r.renderArea == swapChainExtent
      ensures r.vertexBuffer == firstMesh.GetVertexBuffer() && r.vertexOffset == 0 && r.instanceCount == 1
      ensures firstMesh.GetVertexCount() < UINT32_LIMIT ==> r.vertexCount as int == firstMesh.GetVertexCount()
    {
      Recording(commandBuffers[i], swapChainFramebuffers[i], swapChainExtent,
                firstMesh.GetVertexBuffer(), 0, ToUint32(firstMesh.GetVertexCount()), 1)
    }

    /**
      RecordCommands: record every command buffer in order; the first begin or end that fails
      throws, so the buffers recorded are exactly those before the first failure.
     */
    method RecordCommands(results: seq<RecordResult>) returns (outcome: Result<(), InitError>, recorded: seq<Recording>)
      requires |commandBuffers| <= |swapChainFramebuffers|
      requires |results| == |commandBuffers|
      ensures |recorded| <= |commandBuffers|
      ensures forall i :: 0 <= i < |recorded| ==> recorded[i] == RecordingFor(i) && results[i].AllOk()
      ensures outcome.Success? <==> forall i :: 0 <= i < |results| ==> results[i].AllOk()
      ensures outcome.Success? ==> |recorded| == |commandBuffers|
      ensures outcome.Failure? ==>
        && outcome.error == CommandRecordingFailed
        && |recorded| < |results| && !results[|recorded|].AllOk()
    {
      recorded := [];
      var i := 0;
      while i < |commandBuffers|
        invariant 0 <= i <= |commandBuffers|
        invariant |recorded| == i
        invariant forall k :: 0 <= k < i ==> recorded[k] == RecordingFor(k) && results[k].AllOk()
      {
        if !results[i].beginOk {
          return Failure(CommandRecordingFailed), recorded;
        }
        var recording := Recording(commandBuffers[i], swapChainFramebuffers[i], swapChainExtent,
                                   firstMesh.GetVertexBuffer(), 0, ToUint32(firstMesh.GetVertexCount()), 1);
        if !results[i].endOk {
          return Failure(CommandRecordingFailed), recorded;
        }
        recorded := recorded + [recording];
        i := i + 1;
      }
      outcome := Success(());
    }

    /**
      Draw: one turn of the frame ring, step by step. imageIndex is what vkAcquireNextImageKHR
      writes (always below the image count); submitOk and presentOk are the results of the
      submit and the present.
     */
    method Draw(imageIndex: nat, submitOk: bool, presentOk: bool) returns (outcome: DrawOutcome, calls: seq<DrawCall>)
      requires Valid()
      requires imageIndex < |swapChainImages|
      modifies this
      ensures DrawStep(Ring(), outcome, calls) == DrawFrame(old(Ring()), imageIndex, submitOk, presentOk)
      ensures framesPresented == old(framesPresented) + (if outcome == Presented then 1 else 0)
      ensures Valid()
      ensures swapChainImages == old(swapChainImages) && swapChainFramebuffers == old(swapChainFramebuffers)
      ensures commandBuffers == old(commandBuffers) && firstMesh == old(firstMesh)
      ensures swapChainExtent == old(swapChainExtent) && swapChainImageFormat == old(swapChainImageFormat)
    {
      var f := currentFrame;
      ghost var step := DrawFrame(Ring(), imageIndex, submitOk, presentOk);
      calls := [WaitForFence(f)];
      if drawFences[f] == Unsignaled {
        // nothing will ever signal the fence: the wait does not return
        outcome := Blocked;
      } else {
        drawFences := drawFences[f := Signaled];
        calls := calls + [ResetFence(f)];
        drawFences := drawFences[f := Unsignaled];
        calls := calls + [AcquireNextImage(f)];
        imageAvailable := imageAvailable[f := Pending];
        calls := calls + [QueueSubmit(imageIndex, f, f, f)];
        if !submitOk {
          outcome := SubmitFailed;
        } else {
          drawFences := drawFences[f := Pending];
          imageAvailable := imageAvailable[f := Unsignaled];
          renderFinished := renderFinished[f := Pending];
          calls := calls + [QueuePresent(imageIndex, f)];
          if !presentOk {
            outcome := PresentFailed;
          } else {
            renderFinished := renderFinished[f := Unsignaled];
            currentFrame := (currentFrame + 1) % MAX_FRAME_DRAWS;
            framesPresented := framesPresented + 1;
            outcome := Presented;
          }
        }
      }
    }

    /** Cleanup: the teardown sequence, with one framebuffer and one view per entry of the lists. */
    method Cleanup(validationEnabled: bool) returns (calls: seq<T.Call>)
      requires Valid()
      ensures calls == T.CleanupCalls(|swapChainFramebuffers|, |swapChainImages|, validationEnabled)
    {
      calls := [T.DeviceWaitIdle];
      var meshCalls := firstMesh.DestroyVertexBuffer();
      calls := calls + meshCalls;

      var beforeSync := calls;
      var i := 0;
      while i < MAX_FRAME_DRAWS
        invariant 0 <= i <= MAX_FRAME_DRAWS
        invariant calls == beforeSync + T.SyncTeardown(i)
      {
        calls := calls + [T.Destroy(T.RenderFinished(i)), T.Destroy(T.ImageAvailable(i)), T.Destroy(T.DrawFence(i))];
        i := i + 1;
      }
      calls := calls + [T.Destroy(T.CommandPool)];

      var beforeFramebuffers := calls;
      i := 0;
      while i < |swapChainFramebuffers|
        invariant 0 <= i <= |swapChainFramebuffers|
        invariant calls == beforeFramebuffers + T.FramebufferTeardown(i)
      {
        assert T.FramebufferTeardown(i + 1) == T.FramebufferTeardown(i) + [T.Destroy(T.Framebuffer(i))];
        calls := calls + [T.Destroy(T.Framebuffer(i))];
        i := i + 1;
      }
      calls := calls + [T.Destroy(T.Pipeline), T.Destroy(T.PipelineLayout), T.Destroy(T.RenderPass)];

      var beforeViews := calls;
      i := 0;
      while i < |swapChainImages|
        invariant 0 <= i <= |swapChainImages|
        invariant calls == beforeViews + T.ImageViewTeardown(i)
      {
        assert T.ImageViewTeardown(i + 1) == T.ImageViewTeardown(i) + [T.Destroy(T.ImageView(i))];
        calls := calls + [T.Destroy(T.ImageView(i))];
        i := i + 1;
      }
      calls := calls + [T.Destroy(T.Swapchain), T.Destroy(T.Surface)];
      ghost var beforeMessenger := calls;
      if validationEnabled {
        calls := calls + [T.Destroy(T.DebugMessenger)];
      }
      assert calls == beforeMessenger + (if validationEnabled then [T.Destroy(T.DebugMessenger)] else []);
      calls := calls + [T.Destroy(T.Device), T.Destroy(T.Instance)];
      T.CleanupCallsAppended(|swapChainFramebuffers|, |swapChainImages|, validationEnabled);
    }

    /**
      Init's steps after the mesh, on a renderer that holds no images, framebuffers, command
      buffers or sync objects yet: the swapchain for the chosen device and its image views,
      the render pass (CreateRenderPass), the pipeline (CreateGraphicsPipeline), the
      framebuffers, the command pool (CreateCommandPool), the command buffers and their
      recordings, and the synchronisation objects. The render pass, the pipeline and the
      pool are known here only by whether their creation succeeds.
     */
    method CreateRenderingResources(device: PhysicalDevice, driver: InitDriver) returns (outcome: Result<(), InitError>)
      requires driver.Consistent()
      requires |device.swapChainDetails.formats| > 0
      requires Unstarted()
      modifies this
      ensures outcome.Success? <==> RenderingFailure(driver).None?
      ensures outcome.Failure? ==> RenderingFailure(driver) == Some(outcome.error)
      ensures firstMesh == old(firstMesh)
      ensures outcome.Success? ==>
        && Valid()
        && Ring() == InitialRing()
        && |swapChainImages| == |driver.images|
    {
      var indices := QueueFamiliesOf(device.queueFamilies);
      var swapchain := CreateSwapChain(device.swapChainDetails, indices, driver.framebufferWidth,
                                       driver.framebufferHeight, driver.swapchainCreated,
                                       driver.images, driver.imageViews);
      if swapchain.Failure? {
        return Failure(swapchain.error);
      }
      if !driver.renderPassCreated {
        return Failure(RenderPassCreationFailed);
      }
      if !driver.pipeline.AllOk() {
        return Failure(PipelineCreationFailed);
      }
      var framebuffers, _ := CreateFramebuffers(driver.framebufferResults);
      if framebuffers.Failure? {
        assert RenderingFailure(driver) == Some(FramebufferCreationFailed);
        return framebuffers;
      }
      if !driver.commandPoolCreated {
        return Failure(CommandPoolCreationFailed);
      }
      outcome := CreateCommandBuffers(driver.allocatedCommandBuffers);
      if outcome.Failure? {
        return;
      }
      var recording, _ := RecordCommands(driver.recordResults);
      if recording.Failure? {
        assert RenderingFailure(driver) == Some(CommandRecordingFailed);
        return recording;
      }
      outcome := CreateSynchronization(driver.syncResults);
      if outcome.Failure? {
        assert RenderingFailure(driver) == Some(SynchronizationCreationFailed);
      }
    }

    /**
      Init: create the instance, the debug messenger and the surface, select the first
      suitable device, create the logical device, create the mesh, then the steps of
      CreateRenderingResources, stopping at the first step that throws.
     */
    method Init(driver: InitDriver) returns (outcome: Result<(), InitError>)
      requires driver.Consistent()
      requires Unstarted()
      modifies this
      ensures outcome.Success? <==> FirstFailure(driver).None?
      ensures outcome.Failure? ==> FirstFailure(driver) == Some(outcome.error)
      ensures outcome.Success? ==>
        && Valid()
        && Ring().Ready()
        && Ring() == InitialRing()
        && |swapChainImages| == |driver.images|
        && firstMesh.GetVertexCount() == |MeshVertices|
        && exists i :: 0 <= i < |driver.devices| && CheckDeviceSuitable(driver.devices[i])
    {
      var setup := SetupFailure(driver);
      if setup.Some? {
        return Failure(setup.value);
      }
      var selected := SelectPhysicalDevice(driver.enumerateResult, driver.devices);
      if selected.Failure? {
        assert FirstFailure(driver) == Some(DeviceSelectionFailed(selected.error));
        return Failure(DeviceSelectionFailed(selected.error));
      }
      var device := driver.devices[selected.value];
      if !driver.logicalDeviceCreated {
        return Failure(LogicalDeviceCreationFailed);
      }

      var mesh, meshOutcome, _ := M.NewMesh(MeshVertices, driver.bufferDriver);
      if meshOutcome.Failure? {
        assert FirstFailure(driver) == Some(MeshCreationFailed(meshOutcome.error));
        return Failure(MeshCreationFailed(meshOutcome.error));
      }
      firstMesh := mesh;

      assert FirstFailure(driver) == RenderingFailure(driver);
      outcome := CreateRenderingResources(device, driver);
      if outcome.Success? {
        InitialRingReady();
      }
    }
  }

  /** Drawing from a valid renderer submits the command buffer of the acquired image and the
      sync objects of the current slot, presents that image waiting on the slot's
      render-finished semaphore once the submit succeeded, and a successful draw keeps the
      ring ready. */
  lemma DrawUsesImageBufferAndSlotObjects(ring: FrameRing, imageIndex: nat, submitOk: bool, presentOk: bool)
    requires ring.Ready()
    ensures var step := DrawFrame(ring, imageIndex, submitOk, presentOk);
      var f := ring.currentFrame;
      && step.calls[..4] == [WaitForFence(f), ResetFence(f), AcquireNextImage(f), QueueSubmit(imageIndex, f, f, f)]
      && (step.outcome in {Presented, PresentFailed} <==> submitOk)
      && (step.outcome in {Presented, PresentFailed} ==>
            |step.calls| == 5 && step.calls[4] == QueuePresent(imageIndex, f))
      && (step.outcome == Presented ==> step.ring.Ready())
  {
    DrawKeepsReady(ring, imageIndex, submitOk, presentOk);
    DrawCallOrder(ring, imageIndex, submitOk, presentOk);
  }

  /**
    The swapchain's images are shared exactly when the logical device was asked for queues of
    two families, and then between exactly those families.
   */
  lemma SharingMatchesQueueRequests(indices: QueueFamilyIndices)
    requires indices.IsValid()
    requires indices.graphicsFamily < UINT32_LIMIT && indices.presentationFamily < UINT32_LIMIT
    ensures var sharing := ChooseImageSharing(indices);
      var queues := LogicalDeviceCreateInfo(indices).queueCreateInfos;
      && (sharing.mode == Concurrent <==> |queues| == 2)
      && (sharing.mode == Exclusive <==> |queues| == 1)
      && (sharing.mode == Concurrent ==>
            (set k | 0 <= k < |sharing.queueFamilyIndices| :: sharing.queueFamilyIndices[k] as int)
            == (set k | 0 <= k < |queues| :: queues[k].queueFamilyIndex))
  {
    var g, p := indices.graphicsFamily, indices.presentationFamily;
    var sharing := ChooseImageSharing(indices);
    if g != p {
      assert |{g, p}| == 2;
      var shared := set k | 0 <= k < |sharing.queueFamilyIndices| :: sharing.queueFamilyIndices[k] as int;
      assert shared == {g, p} by {
        assert sharing.queueFamilyIndices[0] == g && sharing.queueFamilyIndices[1] == p;
      }
    } else {
      assert {g, p} == {g};
    }
  }
}
