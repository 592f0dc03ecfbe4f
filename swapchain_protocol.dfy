/** The virtual entry points of `grfx::Swapchain` as they dispatch on the
    concrete kind: `Create` and `Destroy` run the generic phases around the
    variant hooks, `GetType` and `ShouldSkipExternalSynchronization` answer
    per kind. */
module SwapchainProtocol {
  import opened GrfxTypes
  import opened GrfxDevice
  import opened Swapchain
  import VirtualSwapchain
  import SurfaceSwapchain
  import XrSwapchain

  /** What the API backend's `CreateApiObjects` leaves behind for a surface or
      an XR swapchain: its result, and the color images, the depth images and
      the OpenXR sub-swapchain handles it had stored by then. A backend that
      fails part-way keeps what it stored before the failure. The backend is
      not part of this model. */
  datatype BackendImages = BackendImages(
    result: Result,
    colorImages: seq<Handle>,
    depthImages: seq<Handle>,
    xrColorSwapchain: Option<XrHandle>,
    xrDepthSwapchain: Option<XrHandle>)

  /** The code a run of phases returns when each phase runs only after the
      previous ones succeeded: the first failure, or SUCCESS. */
  function FirstFailure(rs: seq<Result>): (r: Result)
    ensures r == Success <==> forall i :: 0 <= i < |rs| ==> rs[i] == Success
    ensures r != Success ==>
              exists i :: 0 <= i < |rs| && rs[i] == r && forall j :: 0 <= j < i ==> rs[j] == Success
  {
    if rs == [] then Success
    else if rs[0] != Success then rs[0]
    else
      var r := FirstFailure(rs[1..]);
      if r != Success then
        var i :| 0 <= i < |rs[1..]| && rs[1..][i] == r && forall j :: 0 <= j < i ==> rs[1..][j] == Success;
        assert rs[i + 1] == r && forall j :: 0 <= j < i + 1 ==> rs[j] == Success;
        r
      else
        assert forall i :: 1 <= i < |rs| ==> rs[i] == rs[1..][i - 1];
        r
  }

  /** When every phase but the last succeeded, the last one's result is the
      run's result. */
  lemma LastPhaseIsFirstFailure(phases: seq<Result>)
    requires |phases| >= 1 && forall i :: 0 <= i < |phases| - 1 ==> phases[i] == Success
    ensures FirstFailure(phases) == phases[|phases| - 1]
  {
  }

  /** `GetType`, answered by the concrete kind. */
  function GetType(sc: Swapchain): (t: SwapchainType)
    ensures t == sc.kind && t != Unknown
  {
    match sc.kind
    case Virtual => VirtualSwapchain.GetType()
    case Surface => SurfaceSwapchain.GetType()
    case Xr => XrSwapchain.GetType()
  }

  /** `ShouldSkipExternalSynchronization`: only an XR swapchain built with XR
      support overrides the base answer. */
  function ShouldSkipExternalSynchronization(sc: Swapchain, xrBuild: bool): (skip: bool)
    ensures skip <==> sc.kind == Xr && xrBuild
  {
    if sc.kind == Xr && xrBuild then XrSwapchain.ShouldSkipExternalSynchronization()
    else sc.ShouldSkipExternalSynchronization()
  }

  /** The device objects `CreateInternal` makes, as the swapchain holds them
      afterwards: a virtual swapchain's color images, and the depth images of a
      virtual or a surface swapchain. An XR swapchain's images are made by its
      backend while it creates its API objects, not here. */
  function InternalObjects(kind: SwapchainKind, s: SwapchainState): (n: nat)
    ensures n <= |s.colorImages| + |s.depthImages|
    ensures kind == Xr ==> n == 0
  {
    (if kind == Virtual then |s.colorImages| else 0) + (if kind == Xr then 0 else |s.depthImages|)
  }

  /** The device objects the generic phases make, as the swapchain holds
      them: every render target view and every render pass. */
  function GenericObjects(s: SwapchainState): (n: nat)
    ensures n == 0 <==> s.clearRenderTargets == [] && s.loadRenderTargets == [] && s.depthStencilViews == [] &&
                        s.clearRenderPasses == [] && s.loadRenderPasses == []
  {
    |s.clearRenderTargets| + |s.loadRenderTargets| + |s.depthStencilViews| +
    |s.clearRenderPasses| + |s.loadRenderPasses|
  }

  /** The state `CreateApiObjects` leaves for a non-virtual kind: the create
      info, then whatever the backend stored, succeeded or not; only an XR
      swapchain keeps sub-swapchain handles. */
  function Installed(s: SwapchainState, kind: SwapchainKind, ci: SwapchainCreateInfo,
                     backend: BackendImages): (t: SwapchainState)
    ensures t.createInfo == ci && t.colorImages == backend.colorImages && t.depthImages == backend.depthImages
    ensures kind == Xr ==> t.xrColorSwapchain == backend.xrColorSwapchain && t.xrDepthSwapchain == backend.xrDepthSwapchain
    ensures kind != Xr ==> t.xrColorSwapchain == s.xrColorSwapchain && t.xrDepthSwapchain == s.xrDepthSwapchain
    ensures t.(createInfo := s.createInfo, colorImages := s.colorImages, depthImages := s.depthImages,
               xrColorSwapchain := s.xrColorSwapchain, xrDepthSwapchain := s.xrDepthSwapchain) == s
  {
    var t := s.(createInfo := ci, colorImages := backend.colorImages, depthImages := backend.depthImages);
    if kind == Xr then t.(xrColorSwapchain := backend.xrColorSwapchain, xrDepthSwapchain := backend.xrDepthSwapchain)
    else t
  }

  /** The first phase, `DeviceObject::Create`: the create info is stored, then
      the backend objects are made. A virtual swapchain has none; for the other
      kinds what the backend stored is installed whether or not it succeeded,
      so that a later `Destroy` releases it. */
  method CreateApiObjects(sc: Swapchain, ci: SwapchainCreateInfo, backend: BackendImages) returns (res: Result)
    modifies sc
    ensures sc.kind == Virtual ==> res == Success && sc.State() == old(sc.State()).(createInfo := ci)
    ensures sc.kind != Virtual ==> res == backend.result && sc.State() == Installed(old(sc.State()), sc.kind, ci, backend)
  {
    sc.createInfo := ci;
    if sc.kind == Virtual {
      return VirtualSwapchain.CreateApiObjects(ci);
    }
    res := backend.result;
    sc.colorImages, sc.depthImages := backend.colorImages, backend.depthImages;
    if sc.kind == Xr {
      sc.xrColorSwapchain, sc.xrDepthSwapchain := backend.xrColorSwapchain, backend.xrDepthSwapchain;
    }
  }

  /** The second phase, `CreateInternal`, dispatched on the kind. On success
      there is one color image per counted image, and one depth image per
      counted image exactly when a depth format is set. */
  method CreateInternal(sc: Swapchain) returns (res: Result)
    requires sc.kind == Virtual ==>
               sc.colorImages == [] && sc.depthImages == [] && sc.commandBuffers == [] &&
               sc.createInfo.imageCount > 0
    requires sc.kind != Virtual ==> 0 < |sc.colorImages| < U32_LIMIT
    requires sc.kind == Surface ==> sc.depthImages == []
    requires sc.kind == Xr ==>
               |sc.depthImages| == (if sc.createInfo.depthFormat == Undefined then 0 else |sc.colorImages|)
    modifies sc, sc.device, sc.createInfo.queue
    ensures sc.device.destroyed == old(sc.device.destroyed)
    ensures old(sc.device.objects) <= sc.device.objects
    ensures sc.createInfo == old(sc.createInfo).(imageCount := sc.createInfo.imageCount)
    ensures sc.State() == old(sc.State()).(createInfo := sc.createInfo, colorImages := sc.colorImages,
                                           depthImages := sc.depthImages,
                                           currentImageIndex := sc.currentImageIndex,
                                           commandBuffers := sc.commandBuffers)
    ensures sc.createInfo.queue != null ==>
              sc.createInfo.queue.submissions == old(sc.createInfo.queue.submissions) &&
              sc.createInfo.queue.destroyed == old(sc.createInfo.queue.destroyed) &&
              sc.createInfo.queue.requests ==
              old(sc.createInfo.queue.requests) + (if res == Success && sc.kind == Virtual then sc.createInfo.imageCount else 0)
    ensures sc.kind == Virtual && sc.createInfo.queue == null ==>
              res == ErrorUnexpectedNullArgument && sc.State() == old(sc.State()) &&
              sc.device.objects == old(sc.device.objects)
    ensures !(sc.kind == Virtual && sc.createInfo.queue == null) ==>
              StoppedAtFirstFailure(sc.device.outcome, |old(sc.device.objects)|, |sc.device.objects|, res)
    ensures sc.kind != Virtual ==>
              sc.colorImages == old(sc.colorImages) && sc.createInfo.imageCount == old(|sc.colorImages|) &&
              sc.commandBuffers == old(sc.commandBuffers) && sc.currentImageIndex == old(sc.currentImageIndex)
    ensures sc.kind == Xr ==> res == Success && sc.State() == old(sc.State()).(createInfo := sc.createInfo)
    ensures sc.kind == Virtual ==> sc.createInfo == old(sc.createInfo)
    ensures !(sc.kind == Virtual && sc.createInfo.queue == null) ==>
              |sc.device.objects| ==
              |old(sc.device.objects)| + InternalObjects(sc.kind, sc.State()) + (if res == Success then 0 else 1)
    ensures |sc.colorImages| <= sc.createInfo.imageCount && |sc.depthImages| <= sc.createInfo.imageCount
    ensures res == Success ==>
              0 < |sc.colorImages| == sc.createInfo.imageCount &&
              |sc.depthImages| == (if sc.createInfo.depthFormat == Undefined then 0 else sc.createInfo.imageCount)
    ensures res == Success && sc.kind != Xr && sc.createInfo.depthFormat != Undefined ==>
              ImagesOf(sc.device.objects, sc.depthImages,
                       DepthStencilTarget(sc.createInfo.width, sc.createInfo.height, sc.createInfo.depthFormat))
    ensures res == Success && sc.kind == Virtual ==>
              sc.createInfo.queue != null &&
              ImagesOf(sc.device.objects, sc.colorImages,
                       ColorTarget(sc.createInfo.width, sc.createInfo.height, sc.createInfo.colorFormat)) &&
              sc.currentImageIndex == sc.createInfo.imageCount - 1 &&
              |sc.commandBuffers| == sc.createInfo.imageCount &&
              forall i :: 0 <= i < |sc.commandBuffers| ==>
                sc.commandBuffers[i] == CommandBufferSlot(sc.createInfo.queue.outcome, old(sc.createInfo.queue.requests) + i)
  {
    match sc.kind
    case Virtual =>
      var colorAdded;
      res, colorAdded := VirtualSwapchain.CreateInternal(sc);
    case Surface =>
      res := SurfaceSwapchain.CreateInternal(sc);
    case Xr =>
      res := XrSwapchain.CreateInternal(sc);
  }

  /** The generic phases of `Create`: `CreateRenderTargets`, then, when it
      succeeded, `CreateRenderPasses`. `ran` counts the phases that ran; `res`
      is the last one's result. */
  method CreateTargetsAndPasses(sc: Swapchain) returns (res: Result, ghost ran: nat)
    requires sc.depthImages == [] || |sc.depthImages| == |sc.colorImages|
    requires sc.clearRenderTargets == [] && sc.loadRenderTargets == [] && sc.depthStencilViews == []
    requires sc.clearRenderPasses == [] && sc.loadRenderPasses == []
    modifies sc, sc.device
    ensures 1 <= ran <= 2
    ensures ran == 1 ==> Failed(res) && sc.clearRenderPasses == [] && sc.loadRenderPasses == []
    ensures sc.device.destroyed == old(sc.device.destroyed)
    ensures old(sc.device.objects) <= sc.device.objects
    ensures StoppedAtFirstFailure(sc.device.outcome, |old(sc.device.objects)|, |sc.device.objects|, res)
    ensures sc.State() == old(sc.State()).(clearRenderTargets := sc.clearRenderTargets,
                                           loadRenderTargets := sc.loadRenderTargets,
                                           depthStencilViews := sc.depthStencilViews,
                                           clearRenderPasses := sc.clearRenderPasses,
                                           loadRenderPasses := sc.loadRenderPasses)
    ensures ran == 2 ==>
              |sc.clearRenderTargets| == |sc.loadRenderTargets| == |sc.colorImages| &&
              |sc.depthStencilViews| == |sc.depthImages|
    ensures sc.loadRenderPasses != [] ==> |sc.clearRenderPasses| == |sc.colorImages|
    ensures res == Success ==>
              |sc.clearRenderTargets| == |sc.loadRenderTargets| == |sc.colorImages| &&
              |sc.clearRenderPasses| == |sc.loadRenderPasses| == |sc.colorImages| &&
              |sc.depthStencilViews| == |sc.depthImages|
    ensures sc.Wired()
    ensures |sc.device.objects| == |old(sc.device.objects)| + GenericObjects(sc.State()) + (if res == Success then 0 else 1)
  {
    ghost var from := |sc.device.objects|;
    var clearViews, loadViews, depthViews;
    res, clearViews, loadViews, depthViews := sc.CreateRenderTargets();
    ran := 1;
    assert sc.clearRenderTargets == clearViews && sc.loadRenderTargets == loadViews &&
           sc.depthStencilViews == depthViews;
    if res != Success {
      return;
    }
    ghost var afterTargets := sc.device.objects;
    var clearPasses, loadPasses;
    res, clearPasses, loadPasses := sc.CreateRenderPasses();
    ran := 2;
    assert sc.clearRenderPasses == clearPasses && sc.loadRenderPasses == loadPasses;
    StoppedAfterSuccesses(sc.device.outcome, from, |afterTargets|, |sc.device.objects|, res);
    ViewsStable(afterTargets, sc.device.objects, sc.colorImages, sc.clearRenderTargets, Clear);
    ViewsStable(afterTargets, sc.device.objects, sc.colorImages, sc.loadRenderTargets, Load);
    DepthViewsStable(afterTargets, sc.device.objects, sc.depthImages, sc.depthStencilViews);
  }

  /** The phases of `Create` that follow the backend objects: `CreateInternal`,
      `CreateRenderTargets`, then `CreateRenderPasses`, each run only when
      every earlier phase succeeded. `ran` counts the phases that ran; `res` is
      the last one's result; what a failed phase made before it stopped is kept. */
  method CreateAfterBackend(sc: Swapchain) returns (res: Result, ghost ran: nat)
    requires sc.clearRenderTargets == [] && sc.loadRenderTargets == [] && sc.depthStencilViews == []
    requires sc.clearRenderPasses == [] && sc.loadRenderPasses == [] && sc.commandBuffers == []
    requires sc.kind == Virtual ==> sc.colorImages == [] && sc.depthImages == [] && sc.createInfo.imageCount > 0
    requires sc.kind != Virtual ==> 0 < |sc.colorImages| < U32_LIMIT
    requires sc.kind == Surface ==> sc.depthImages == []
    requires sc.kind == Xr ==>
               |sc.depthImages| == (if sc.createInfo.depthFormat == Undefined then 0 else |sc.colorImages|)
    modifies sc, sc.device, sc.createInfo.queue
    ensures 1 <= ran <= 3
    ensures ran < 3 ==> Failed(res)
    ensures sc.createInfo == old(sc.createInfo).(imageCount := sc.createInfo.imageCount)
    ensures sc.device.destroyed == old(sc.device.destroyed)
    ensures old(sc.device.objects) <= sc.device.objects
    ensures sc.createInfo.queue != null ==>
              sc.createInfo.queue.submissions == old(sc.createInfo.queue.submissions) &&
              sc.createInfo.queue.destroyed == old(sc.createInfo.queue.destroyed) &&
              sc.createInfo.queue.requests ==
              old(sc.createInfo.queue.requests) + (if ran >= 2 && sc.kind == Virtual then old(sc.createInfo.imageCount) else 0)
    ensures sc.xrColorSwapchain == old(sc.xrColorSwapchain) && sc.xrDepthSwapchain == old(sc.xrDepthSwapchain)
    ensures sc.kind != Virtual ==>
              sc.colorImages == old(sc.colorImages) && sc.createInfo.imageCount == old(|sc.colorImages|) &&
              sc.currentImageIndex == old(sc.currentImageIndex) && sc.commandBuffers == old(sc.commandBuffers)
    ensures sc.kind == Xr ==> sc.depthImages == old(sc.depthImages)
    ensures sc.kind == Virtual && sc.createInfo.queue == null ==>
              res == ErrorUnexpectedNullArgument && ran == 1 && sc.device.objects == old(sc.device.objects)
    ensures !(sc.kind == Virtual && sc.createInfo.queue == null) ==>
              StoppedAtFirstFailure(sc.device.outcome, |old(sc.device.objects)|, |sc.device.objects|, res)
    ensures ran == 1 ==> sc.clearRenderTargets == [] && sc.loadRenderTargets == [] && sc.depthStencilViews == []
    ensures ran <= 2 ==> sc.clearRenderPasses == [] && sc.loadRenderPasses == []
    ensures |sc.colorImages| <= sc.createInfo.imageCount && |sc.depthImages| <= sc.createInfo.imageCount
    ensures ran >= 2 ==>
              0 < |sc.colorImages| == sc.createInfo.imageCount &&
              |sc.depthImages| == (if sc.createInfo.depthFormat == Undefined then 0 else sc.createInfo.imageCount)
    ensures ran == 3 ==>
              |sc.clearRenderTargets| == |sc.loadRenderTargets| == |sc.colorImages| &&
              |sc.depthStencilViews| == |sc.depthImages|
    ensures sc.loadRenderPasses != [] ==> |sc.clearRenderPasses| == |sc.colorImages|
    ensures sc.Wired()
    ensures !(sc.kind == Virtual && sc.createInfo.queue == null) ==>
              |sc.device.objects| ==
              |old(sc.device.objects)| + InternalObjects(sc.kind, sc.State()) + GenericObjects(sc.State()) +
              (if res == Success then 0 else 1)
    ensures res == Success ==> sc.Created() && 0 < sc.createInfo.imageCount
    ensures res == Success && sc.kind != Xr && sc.createInfo.depthFormat != Undefined ==>
              ImagesOf(sc.device.objects, sc.depthImages,
                       DepthStencilTarget(sc.createInfo.width, sc.createInfo.height, sc.createInfo.depthFormat))
    ensures res == Success && sc.kind == Virtual ==>
              sc.createInfo.queue != null && sc.createInfo.imageCount == old(sc.createInfo.imageCount) &&
              ImagesOf(sc.device.objects, sc.colorImages,
                       ColorTarget(sc.createInfo.width, sc.createInfo.height, sc.createInfo.colorFormat)) &&
              sc.currentImageIndex == sc.createInfo.imageCount - 1 &&
              |sc.commandBuffers| == sc.createInfo.imageCount &&
              forall i :: 0 <= i < sc.createInfo.imageCount ==>
                sc.commandBuffers[i] == CommandBufferSlot(sc.createInfo.queue.outcome, old(sc.createInfo.queue.requests) + i)
  {
    ghost var from := |sc.device.objects|;
    res := CreateInternal(sc);
    ran := 1;
    if res != Success {
      UnbuiltIsWired(sc);
      return;
    }
    ghost var afterInternal := sc.device.objects;
    ghost var images := InternalObjects(sc.kind, sc.State());
    assert |afterInternal| == from + images;
    ghost var generic: nat;
    res, generic := CreateTargetsAndPasses(sc);
    ran := 1 + generic;
    assert images == InternalObjects(sc.kind, sc.State());
    StoppedAfterSuccesses(sc.device.outcome, from, |afterInternal|, |sc.device.objects|, res);
    var ci := sc.createInfo;
    if sc.kind != Xr && ci.depthFormat != Undefined {
      ImagesStable(afterInternal, sc.device.objects, sc.depthImages, DepthStencilTarget(ci.width, ci.height, ci.depthFormat));
    }
    if sc.kind == Virtual {
      ImagesStable(afterInternal, sc.device.objects, sc.colorImages, ColorTarget(ci.width, ci.height, ci.colorFormat));
    }
  }

  /** `Swapchain::Create`: the backend objects, `CreateInternal`,
      `CreateRenderTargets`, then `CreateRenderPasses`, each run only when
      every earlier phase succeeded. `phases` holds the result of each phase
      that ran, so `res` is `FirstFailure(phases)` (`LastPhaseIsFirstFailure`);
      what a failed phase made before it stopped is kept. */
  method Create(sc: Swapchain, ci: SwapchainCreateInfo, backend: BackendImages)
    returns (res: Result, ghost phases: seq<Result>)
    requires sc.Empty()
    requires sc.kind == Virtual ==> 0 < ci.imageCount
    requires sc.kind != Virtual && backend.result == Success ==> 0 < |backend.colorImages| < U32_LIMIT
    requires sc.kind == Surface && backend.result == Success ==> backend.depthImages == []
    requires sc.kind == Xr && backend.result == Success ==>
               |backend.depthImages| == (if ci.depthFormat == Undefined then 0 else |backend.colorImages|)
    modifies sc, sc.device, ci.queue
    ensures 1 <= |phases| <= 4 && res == phases[|phases| - 1]
    ensures forall i :: 0 <= i < |phases| - 1 ==> phases[i] == Success
    ensures |phases| < 4 ==> Failed(res)
    ensures sc.createInfo == ci.(imageCount := sc.createInfo.imageCount)
    ensures sc.device.destroyed == old(sc.device.destroyed)
    ensures old(sc.device.objects) <= sc.device.objects
    ensures ci.queue != null ==>
              ci.queue.submissions == old(ci.queue.submissions) && ci.queue.destroyed == old(ci.queue.destroyed) &&
              ci.queue.requests == old(ci.queue.requests) + (if |phases| >= 3 && sc.kind == Virtual then ci.imageCount else 0)
    ensures |phases| == 1 ==>
              sc.kind != Virtual && res == backend.result && sc.State() == Installed(old(sc.State()), sc.kind, ci, backend) &&
              sc.device.objects == old(sc.device.objects)
    ensures sc.kind == Virtual && ci.queue == null ==>
              res == ErrorUnexpectedNullArgument && |phases| == 2 && sc.device.objects == old(sc.device.objects)
    ensures |phases| >= 2 && !(sc.kind == Virtual && ci.queue == null) ==>
              StoppedAtFirstFailure(sc.device.outcome, |old(sc.device.objects)|, |sc.device.objects|, res)
    ensures |phases| <= 2 ==> sc.clearRenderTargets == [] && sc.loadRenderTargets == [] && sc.depthStencilViews == []
    ensures |phases| <= 3 ==> sc.clearRenderPasses == [] && sc.loadRenderPasses == []
    ensures |phases| >= 2 ==>
              |sc.colorImages| <= sc.createInfo.imageCount && |sc.depthImages| <= sc.createInfo.imageCount
    ensures |phases| >= 3 ==>
              0 < |sc.colorImages| == sc.createInfo.imageCount &&
              |sc.depthImages| == (if ci.depthFormat == Undefined then 0 else sc.createInfo.imageCount)
    ensures |phases| == 4 ==>
              |sc.clearRenderTargets| == |sc.loadRenderTargets| == |sc.colorImages| &&
              |sc.depthStencilViews| == |sc.depthImages|
    ensures sc.loadRenderPasses != [] ==> |sc.clearRenderPasses| == |sc.colorImages|
    ensures sc.Wired()
    ensures |phases| >= 2 && !(sc.kind == Virtual && ci.queue == null) ==>
              |sc.device.objects| ==
              |old(sc.device.objects)| + InternalObjects(sc.kind, sc.State()) + GenericObjects(sc.State()) +
              (if res == Success then 0 else 1)
    ensures res == Success ==> sc.Created() && 0 < sc.createInfo.imageCount
    ensures |phases| >= 2 && sc.kind != Virtual ==>
              sc.colorImages == backend.colorImages && sc.createInfo.imageCount == |backend.colorImages|
    ensures sc.kind != Virtual ==>
              sc.currentImageIndex == old(sc.currentImageIndex) && sc.commandBuffers == old(sc.commandBuffers)
    ensures sc.kind != Xr ==>
              sc.xrColorSwapchain == old(sc.xrColorSwapchain) && sc.xrDepthSwapchain == old(sc.xrDepthSwapchain)
    ensures res == Success && sc.kind == Xr ==>
              sc.depthImages == backend.depthImages &&
              sc.xrColorSwapchain == backend.xrColorSwapchain && sc.xrDepthSwapchain == backend.xrDepthSwapchain
    ensures res == Success && sc.kind != Xr && ci.depthFormat != Undefined ==>
              ImagesOf(sc.device.objects, sc.depthImages, DepthStencilTarget(ci.width, ci.height, ci.depthFormat))
    ensures res == Success && sc.kind == Virtual ==>
              ci.queue != null && sc.createInfo.imageCount == ci.imageCount &&
              ImagesOf(sc.device.objects, sc.colorImages, ColorTarget(ci.width, ci.height, ci.colorFormat)) &&
              sc.currentImageIndex == ci.imageCount - 1 &&
              |sc.commandBuffers| == ci.imageCount &&
              forall i :: 0 <= i < ci.imageCount ==>
                sc.commandBuffers[i] == CommandBufferSlot(ci.queue.outcome, old(ci.queue.requests) + i)
  {
    res := CreateApiObjects(sc, ci, backend);
    phases := [res];
    if res != Success {
      return;
    }
    ghost var ran;
    res, ran := CreateAfterBackend(sc);
    phases := phases + seq(ran - 1, i => Success) + [res];
  }

  /** The handles `Destroy` hands back to the device, in order: the CLEAR then
      LOAD render passes, the CLEAR then LOAD views, the depth-stencil views,
      the depth images, then the color images. Every per-image object the
      swapchain holds is in it, and nothing else. */
  function Teardown(s: SwapchainState): (handles: seq<Handle>)
    ensures forall h :: h in handles <==>
              h in s.clearRenderPasses || h in s.loadRenderPasses || h in s.clearRenderTargets ||
              h in s.loadRenderTargets || h in s.depthStencilViews || h in s.depthImages || h in s.colorImages
    ensures |handles| == |s.clearRenderPasses| + |s.loadRenderPasses| + |s.clearRenderTargets| +
                         |s.loadRenderTargets| + |s.depthStencilViews| + |s.depthImages| + |s.colorImages|
  {
    s.clearRenderPasses + s.loadRenderPasses + s.clearRenderTargets + s.loadRenderTargets +
    s.depthStencilViews + s.depthImages + s.colorImages
  }

  /** After a successful `Create`, `Destroy` releases five device objects per
      image, and seven when there is depth. */
  lemma TeardownOfCreated(sc: Swapchain)
    requires sc.Created()
    ensures |Teardown(sc.State())| ==
            (if sc.createInfo.depthFormat == Undefined then 5 else 7) * sc.createInfo.imageCount
  {
  }

  /** The generic part of `Destroy`: render passes, render targets, depth
      images, then color images go back to the device. */
  method DestroyLists(sc: Swapchain)
    modifies sc, sc.device
    ensures sc.State() == old(sc.State()).(depthImages := [], colorImages := [], clearRenderTargets := [],
                                           loadRenderTargets := [], depthStencilViews := [],
                                           clearRenderPasses := [], loadRenderPasses := [])
    ensures sc.device.destroyed == old(sc.device.destroyed) + Teardown(old(sc.State()))
    ensures sc.device.objects == old(sc.device.objects)
  {
    ghost var s := sc.State();
    ghost var log := sc.device.destroyed;
    sc.DestroyRenderPasses();
    sc.DestroyRenderTargets();
    sc.DestroyDepthImages();
    sc.DestroyColorImages();
    assert sc.device.destroyed == log + s.clearRenderPasses + s.loadRenderPasses + s.clearRenderTargets +
                                  s.loadRenderTargets + s.depthStencilViews + s.depthImages + s.colorImages;
  }

  /** `Swapchain::Destroy`: render passes, render targets, depth images, color
      images, then `DestroyInternal` for the kind; an XR swapchain built
      without XR support has nothing of its own to release. Every per-image
      list ends empty; the XR sub-swapchain handles are left as they were. */
  method Destroy(sc: Swapchain, compositor: Compositor, xrBuild: bool)
    requires sc.kind == Virtual && sc.createInfo.queue == null ==>
               forall i :: 0 <= i < |sc.commandBuffers| ==> sc.commandBuffers[i].None?
    modifies sc, sc.device, sc.createInfo.queue, compositor
    ensures sc.State() == old(sc.State()).(depthImages := [], colorImages := [], clearRenderTargets := [],
                                           loadRenderTargets := [], depthStencilViews := [],
                                           clearRenderPasses := [], loadRenderPasses := [],
                                           commandBuffers := if sc.kind == Virtual then [] else old(sc.commandBuffers))
    ensures sc.device.destroyed == old(sc.device.destroyed) + Teardown(old(sc.State()))
    ensures sc.device.objects == old(sc.device.objects)
    ensures sc.kind == Virtual && sc.createInfo.queue != null ==>
              sc.createInfo.queue.destroyed == old(sc.createInfo.queue.destroyed) + NonNull(old(sc.commandBuffers)) &&
              sc.createInfo.queue.submissions == old(sc.createInfo.queue.submissions) &&
              sc.createInfo.queue.requests == old(sc.createInfo.queue.requests)
    ensures sc.kind != Virtual && sc.createInfo.queue != null ==>
              sc.createInfo.queue.destroyed == old(sc.createInfo.queue.destroyed) &&
              sc.createInfo.queue.submissions == old(sc.createInfo.queue.submissions) &&
              sc.createInfo.queue.requests == old(sc.createInfo.queue.requests)
    ensures sc.kind == Xr && xrBuild ==>
              compositor.calls == old(compositor.calls) + XrSwapchain.DestroyCalls(sc.xrColorSwapchain) +
                                  XrSwapchain.DestroyCalls(sc.xrDepthSwapchain)
    ensures !(sc.kind == Xr && xrBuild) ==> compositor.calls == old(compositor.calls)
  {
    DestroyLists(sc);
    match sc.kind
    case Virtual =>
      VirtualSwapchain.DestroyInternal(sc);
    case Surface =>
      SurfaceSwapchain.DestroyInternal(sc);
    case Xr =>
      if xrBuild {
        XrSwapchain.DestroyInternal(sc, compositor);
      } else {
        XrSwapchain.StubDestroyInternal(sc);
      }
  }

  /** A surface that produces three images for a request of two, with a depth
      format: every list follows the count the surface chose. */
  method SurfaceCountScenario() returns (res: Result, imageCount: U32, depthImages: nat, clearPasses: nat)
    ensures res == Success && imageCount == 3 && depthImages == 3 && clearPasses == 3
  {
    var device := new Device(k => Success);
    var sc := new Swapchain(Surface, device);
    var ci := DefaultCreateInfo.(swapchainType := Surface, width := 1280, height := 720,
                                 colorFormat := Defined(1), depthFormat := Defined(2), imageCount := 2);
    var backend := BackendImages(Success, [Handle(1000), Handle(1001), Handle(1002)], [], None, None);
    ghost var phases;
    res, phases := Create(sc, ci, backend);
    imageCount := sc.GetImageCount();
    depthImages := |sc.depthImages|;
    clearPasses := |sc.clearRenderPasses|;
  }

  /** A surface of three images with a depth format, on a device whose
      fifteenth request fails: three depth images, nine views and two CLEAR
      passes are made, the third CLEAR pass fails, and no LOAD pass is tried. */
  method SurfacePassFailureScenario() returns (res: Result, clearPasses: nat, loadPasses: nat)
    ensures res == ErrorOther(9) && clearPasses == 2 && loadPasses == 0
  {
    var device := new Device(k => if k == 14 then ErrorOther(9) else Success);
    var sc := new Swapchain(Surface, device);
    var ci := DefaultCreateInfo.(swapchainType := Surface, width := 1280, height := 720,
                                 colorFormat := Defined(1), depthFormat := Defined(2), imageCount := 2);
    var backend := BackendImages(Success, [Handle(1000), Handle(1001), Handle(1002)], [], None, None);
    ghost var phases;
    res, phases := Create(sc, ci, backend);
    ghost var made := |device.objects|;
    assert |phases| >= 2 && |sc.colorImages| == sc.createInfo.imageCount == 3;
    assert res == Success ==> made == 18;
    assert device.outcome(14) == ErrorOther(9);
    assert res != Success;
    assert device.outcome(made - 1) == res;
    assert made == 15;
    clearPasses := |sc.clearRenderPasses|;
    loadPasses := |sc.loadRenderPasses|;
  }

  /** A virtual swapchain of three images with a depth format, created and
      destroyed: the device gets back seven objects per image and the queue
      every command buffer. */
  method VirtualTeardownScenario() returns (released: nat, returned: nat)
    ensures released == 21 && returned == 3
  {
    var device := new Device(k => Success);
    var queue := new Queue(k => Success);
    var sc := new Swapchain(Virtual, device);
    var ci := DefaultCreateInfo.(swapchainType := Virtual, width := 64, height := 64, colorFormat := Defined(1),
                                 depthFormat := Defined(2), imageCount := 3, queue := queue);
    var res;
    ghost var phases;
    res, phases := Create(sc, ci, BackendImages(Success, [], [], None, None));
    assert res == Success;
    TeardownOfCreated(sc);
    ghost var handles := Teardown(sc.State());
    assert |handles| == 21;
    VirtualSwapchain.AllCommandBuffersReturned(queue.outcome, 0, sc.commandBuffers);
    ghost var buffers := NonNull(sc.commandBuffers);
    assert |buffers| == 3;
    var compositor := new Compositor((h, k) => 0);
    Destroy(sc, compositor, false);
    released := |device.destroyed|;
    returned := |queue.destroyed|;
  }

  /** An XR swapchain whose compositor answers 1 for the color and 2 for the
      depth sub-swapchain: the acquire still succeeds and keeps the depth index. */
  method XrIndexMismatchScenario() returns (res: Result, current: U32)
    ensures res == Success && current == 2
  {
    var device := new Device(k => Success);
    var sc := new Swapchain(Xr, device);
    var ci := DefaultCreateInfo.(swapchainType := Xr, width := 64, height := 64, colorFormat := Defined(1),
                                 depthFormat := Defined(2), imageCount := 2);
    var backend := BackendImages(Success, [Handle(1000), Handle(1001), Handle(1002)],
                                 [Handle(2000), Handle(2001), Handle(2002)], Some(XrHandle(1)), Some(XrHandle(2)));
    ghost var phases;
    res, phases := Create(sc, ci, backend);
    var compositor := new Compositor((h: XrHandle, k: nat) => if h == XrHandle(1) then 1 else 2);
    var index;
    res, index := XrSwapchain.AcquireNextImage(sc, compositor, 0, None, None);
    current := sc.GetCurrentImageIndex();
  }

  /** A virtual swapchain of three images: four acquires in a row return
      0, 1, 2 and 0 again. */
  method VirtualRingScenario() returns (indices: seq<U32>)
    ensures indices == [0, 1, 2, 0]
  {
    var device := new Device(k => Success);
    var queue := new Queue(k => Success);
    var sc := new Swapchain(Virtual, device);
    var ci := DefaultCreateInfo.(swapchainType := Virtual, width := 64, height := 64,
                                 colorFormat := Defined(1), imageCount := 3, queue := queue);
    var res;
    ghost var phases;
    res, phases := Create(sc, ci, BackendImages(Success, [], [], None, None));
    var _, first := VirtualSwapchain.AcquireNextImage(sc, 0, None, None);
    var _, second := VirtualSwapchain.AcquireNextImage(sc, 0, None, None);
    var _, third := VirtualSwapchain.AcquireNextImage(sc, 0, None, None);
    var _, fourth := VirtualSwapchain.AcquireNextImage(sc, 0, None, None);
    indices := [first, second, third, fourth];
  }
}
