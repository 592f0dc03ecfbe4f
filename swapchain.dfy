/** The variant-independent part of a swapchain: the create info, the seven
    per-image lists, the current image index, and the generic phases that
    build and tear down render targets and render passes. */
module Swapchain {
  import opened GrfxTypes
  import opened GrfxDevice

  /** The three concrete swapchain kinds (the base class is abstract). */
  type SwapchainKind = t: SwapchainType | t != Unknown witness Surface

  /** `grfx::SwapchainCreateInfo`. `imageCount` is the requested minimum; some
      variants overwrite it with the actual count. */
  datatype SwapchainCreateInfo = SwapchainCreateInfo(
    swapchainType: SwapchainType,
    width: U32,
    height: U32,
    colorFormat: Format,
    depthFormat: Format,
    imageCount: U32,
    queue: Queue?,
    surface: Option<SurfaceRef>,
    presentMode: PresentMode)

  /** The member initialisers of `SwapchainCreateInfo`. */
  const DefaultCreateInfo: SwapchainCreateInfo :=
    SwapchainCreateInfo(Unknown, 0, 0, Undefined, Undefined, 0, null, None, Immediate)

  /** A snapshot of every field of a swapchain that an operation may change. */
  datatype SwapchainState = SwapchainState(
    createInfo: SwapchainCreateInfo,
    depthImages: seq<Handle>,
    colorImages: seq<Handle>,
    clearRenderTargets: seq<Handle>,
    loadRenderTargets: seq<Handle>,
    depthStencilViews: seq<Handle>,
    clearRenderPasses: seq<Handle>,
    loadRenderPasses: seq<Handle>,
    currentImageIndex: U32,
    commandBuffers: seq<Option<Handle>>,
    xrColorSwapchain: Option<XrHandle>,
    xrDepthSwapchain: Option<XrHandle>)

  /** The outcome of a checked getter: its result code and the value its
      out-parameter holds afterwards. */
  datatype Lookup = Lookup(result: Result, out: Option<Handle>)

  /** `views[i]` is a render-target view of `images[i]` with load op `op`, for
      every `i` so far created. */
  ghost predicate ViewsOf(objects: seq<Option<ObjectDesc>>, images: seq<Handle>, views: seq<Handle>, op: LoadOp)
  {
    |views| <= |images| &&
    forall i :: 0 <= i < |views| ==> Holds(objects, views[i], RenderTargetView(images[i], op))
  }

  /** `views[i]` is a depth-stencil view of `images[i]`, for every `i` so far created. */
  ghost predicate DepthViewsOf(objects: seq<Option<ObjectDesc>>, images: seq<Handle>, views: seq<Handle>)
  {
    |views| <= |images| &&
    forall i :: 0 <= i < |views| ==> Holds(objects, views[i], DepthStencilView(images[i]))
  }

  /** `passes[i]` is a `width` x `height` render pass over `targets[i]` and, when
      there is depth, over `depthViews[i]`, for every `i` so far created. */
  ghost predicate PassesOf(objects: seq<Option<ObjectDesc>>, width: U32, height: U32,
                           targets: seq<Handle>, depthViews: seq<Handle>, hasDepth: bool, passes: seq<Handle>)
  {
    |passes| <= |targets| && (hasDepth ==> |passes| <= |depthViews|) &&
    forall i :: 0 <= i < |passes| ==>
      Holds(objects, passes[i], RenderPass(width, height, targets[i], if hasDepth then Some(depthViews[i]) else None))
  }

  /** `images[i]` was created by the device as `desc`, for every `i`. */
  ghost predicate ImagesOf(objects: seq<Option<ObjectDesc>>, images: seq<Handle>, desc: ObjectDesc)
  {
    forall i :: 0 <= i < |images| ==> Holds(objects, images[i], desc)
  }

  lemma ViewsStable(c1: seq<Option<ObjectDesc>>, c2: seq<Option<ObjectDesc>>, images: seq<Handle>, views: seq<Handle>, op: LoadOp)
    requires ViewsOf(c1, images, views, op) && c1 <= c2
    ensures ViewsOf(c2, images, views, op)
  {
  }

  lemma ViewsAppend(c: seq<Option<ObjectDesc>>, images: seq<Handle>, views: seq<Handle>, v: Handle, op: LoadOp)
    requires ViewsOf(c, images, views, op) && |views| < |images|
    requires Holds(c, v, RenderTargetView(images[|views|], op))
    ensures ViewsOf(c, images, views + [v], op)
  {
  }

  lemma DepthViewsStable(c1: seq<Option<ObjectDesc>>, c2: seq<Option<ObjectDesc>>, images: seq<Handle>, views: seq<Handle>)
    requires DepthViewsOf(c1, images, views) && c1 <= c2
    ensures DepthViewsOf(c2, images, views)
  {
  }

  lemma DepthViewsAppend(c: seq<Option<ObjectDesc>>, images: seq<Handle>, views: seq<Handle>, v: Handle)
    requires DepthViewsOf(c, images, views) && |views| < |images|
    requires Holds(c, v, DepthStencilView(images[|views|]))
    ensures DepthViewsOf(c, images, views + [v])
  {
  }

  lemma PassesStable(c1: seq<Option<ObjectDesc>>, c2: seq<Option<ObjectDesc>>, width: U32, height: U32,
                     targets: seq<Handle>, depthViews: seq<Handle>, hasDepth: bool, passes: seq<Handle>)
    requires PassesOf(c1, width, height, targets, depthViews, hasDepth, passes) && c1 <= c2
    ensures PassesOf(c2, width, height, targets, depthViews, hasDepth, passes)
  {
  }

  lemma PassesAppend(c: seq<Option<ObjectDesc>>, width: U32, height: U32,
                     targets: seq<Handle>, depthViews: seq<Handle>, hasDepth: bool, passes: seq<Handle>, p: Handle)
    requires PassesOf(c, width, height, targets, depthViews, hasDepth, passes)
    requires |passes| < |targets| && (hasDepth ==> |passes| < |depthViews|)
    requires Holds(c, p, RenderPass(width, height, targets[|passes|], if hasDepth then Some(depthViews[|passes|]) else None))
    ensures PassesOf(c, width, height, targets, depthViews, hasDepth, passes + [p])
  {
  }

  lemma ImagesStable(c1: seq<Option<ObjectDesc>>, c2: seq<Option<ObjectDesc>>, images: seq<Handle>, desc: ObjectDesc)
    requires ImagesOf(c1, images, desc) && c1 <= c2
    ensures ImagesOf(c2, images, desc)
  {
  }

  /** The null-checked element of `list` at `index`, with the out-parameter left
      as `out` when the index is out of range (`IsIndexInRange`). */
  function LookupIn(list: seq<Handle>, index: U32, out: Option<Handle>): (r: Lookup)
    ensures index >= |list| ==> r == Lookup(ErrorOutOfRange, out)
    ensures index < |list| ==> r == Lookup(Success, Some(list[index]))
  {
    if index < |list| then Lookup(Success, Some(list[index])) else Lookup(ErrorOutOfRange, out)
  }

  /** Destroys every handle of `handles` in order. */
  method DestroyEach(device: Device, handles: seq<Handle>)
    modifies device
    ensures device.destroyed == old(device.destroyed) + handles
    ensures device.objects == old(device.objects)
  {
    for i := 0 to |handles|
      invariant device.destroyed == old(device.destroyed) + handles[..i]
      invariant device.objects == old(device.objects)
    {
      device.Destroy(handles[i]);
      assert handles[..i + 1] == handles[..i] + [handles[i]];
    }
    assert handles[..|handles|] == handles;
  }

  /** The handle as a list of at most one element. */
  function AsList(h: Option<Handle>): (l: seq<Handle>)
    ensures |l| <= 1 && (l == [] <==> h.None?)
    ensures h.Some? ==> l == [h.value]
  {
    if h.Some? then [h.value] else []
  }

  /** The views of one image: its clear view, its load view and, when there is
      a depth image, that image's depth-stencil view; stops at the first failed
      device request. Each view is absent when it was not made. */
  method CreateImageViews(device: Device, colorImage: Handle, depthImage: Option<Handle>)
    returns (res: Result, clear: Option<Handle>, load: Option<Handle>, depth: Option<Handle>)
    modifies device
    ensures device.destroyed == old(device.destroyed)
    ensures old(device.objects) <= device.objects
    ensures StoppedAtFirstFailure(device.outcome, |old(device.objects)|, |device.objects|, res)
    ensures clear.Some? ==> Holds(device.objects, clear.value, RenderTargetView(colorImage, Clear))
    ensures load.Some? ==> clear.Some? && Holds(device.objects, load.value, RenderTargetView(colorImage, Load))
    ensures depth.Some? ==> load.Some? && depthImage.Some? &&
                            Holds(device.objects, depth.value, DepthStencilView(depthImage.value))
    ensures res == Success <==> load.Some? && (depthImage.Some? ==> depth.Some?)
    ensures |device.objects| == |old(device.objects)| + |AsList(clear)| + |AsList(load)| + |AsList(depth)| +
                                (if res == Success then 0 else 1)
  {
    load, depth := None, None;
    var view;
    res, view := device.Create(RenderTargetView(colorImage, Clear));
    clear := if res == Success then Some(view) else None;
    if res != Success {
      return;
    }
    res, view := device.Create(RenderTargetView(colorImage, Load));
    if res != Success {
      return;
    }
    load := Some(view);
    if depthImage.Some? {
      res, view := device.Create(DepthStencilView(depthImage.value));
      if res != Success {
        return;
      }
      depth := Some(view);
    }
  }

  /** For each color image in order: its clear view, its load view and, when
      there are depth images, the depth-stencil view of the depth image with the
      same index; stops at the first failed device request. */
  method CreateViewLists(device: Device, colorImages: seq<Handle>, depthImages: seq<Handle>)
    returns (res: Result, clears: seq<Handle>, loads: seq<Handle>, depths: seq<Handle>)
    requires depthImages != [] ==> |depthImages| >= |colorImages|
    modifies device
    ensures device.destroyed == old(device.destroyed)
    ensures old(device.objects) <= device.objects
    ensures StoppedAtFirstFailure(device.outcome, |old(device.objects)|, |device.objects|, res)
    ensures ViewsOf(device.objects, colorImages, clears, Clear)
    ensures ViewsOf(device.objects, colorImages, loads, Load)
    ensures DepthViewsOf(device.objects, depthImages, depths)
    ensures |loads| <= |clears| <= |loads| + 1
    ensures depthImages != [] ==> |depths| <= |loads| <= |depths| + 1
    ensures depthImages == [] ==> depths == []
    ensures res == Success ==> |clears| == |loads| == |colorImages|
    ensures res == Success && depthImages != [] ==> |depths| == |colorImages|
    ensures |device.objects| == |old(device.objects)| + |clears| + |loads| + |depths| + (if res == Success then 0 else 1)
  {
    ghost var from := |device.objects|;
    clears, loads, depths := [], [], [];
    var hasDepth := depthImages != [];
    for i := 0 to |colorImages|
      invariant device.destroyed == old(device.destroyed)
      invariant old(device.objects) <= device.objects
      invariant from <= |device.objects| && AllSucceeded(device.outcome, from, |device.objects|)
      invariant |clears| == i && ViewsOf(device.objects, colorImages, clears, Clear)
      invariant |loads| == i && ViewsOf(device.objects, colorImages, loads, Load)
      invariant |depths| == (if hasDepth then i else 0)
      invariant DepthViewsOf(device.objects, depthImages, depths)
      invariant |device.objects| == from + |clears| + |loads| + |depths|
    {
      ghost var before := device.objects;
      var r, clear, load, depth := CreateImageViews(device, colorImages[i],
                                                    if hasDepth then Some(depthImages[i]) else None);
      ViewsStable(before, device.objects, colorImages, clears, Clear);
      ViewsStable(before, device.objects, colorImages, loads, Load);
      DepthViewsStable(before, device.objects, depthImages, depths);
      if clear.Some? {
        ViewsAppend(device.objects, colorImages, clears, clear.value, Clear);
      }
      if load.Some? {
        ViewsAppend(device.objects, colorImages, loads, load.value, Load);
      }
      if depth.Some? {
        DepthViewsAppend(device.objects, depthImages, depths, depth.value);
      }
      assert |device.objects| == |before| + |AsList(clear)| + |AsList(load)| + |AsList(depth)| +
                                  (if r == Success then 0 else 1);
      clears, loads, depths := clears + AsList(clear), loads + AsList(load), depths + AsList(depth);
      if r != Success {
        res := r;
        return;
      }
    }
    res := Success;
  }

  /** One `width` x `height` render pass over each of the first `n` targets
      (and depth-stencil views, when `hasDepth`), in order, stopping at the
      first failed device request. `passes` holds the passes made. */
  method CreatePassList(device: Device, width: U32, height: U32, targets: seq<Handle>,
                        depthViews: seq<Handle>, hasDepth: bool, n: nat) returns (res: Result, passes: seq<Handle>)
    requires n <= |targets| && (hasDepth ==> n <= |depthViews|)
    modifies device
    ensures device.destroyed == old(device.destroyed)
    ensures old(device.objects) <= device.objects
    ensures StoppedAtFirstFailure(device.outcome, |old(device.objects)|, |device.objects|, res)
    ensures PassesOf(device.objects, width, height, targets, depthViews, hasDepth, passes)
    ensures |passes| <= n
    ensures res == Success ==> |passes| == n
    ensures |device.objects| == |old(device.objects)| + |passes| + (if res == Success then 0 else 1)
  {
    ghost var from := |device.objects|;
    passes := [];
    for i := 0 to n
      invariant device.destroyed == old(device.destroyed)
      invariant old(device.objects) <= device.objects
      invariant from <= |device.objects| && AllSucceeded(device.outcome, from, |device.objects|)
      invariant |passes| == i && PassesOf(device.objects, width, height, targets, depthViews, hasDepth, passes)
      invariant |device.objects| == from + i
    {
      var dsv := if hasDepth then Some(depthViews[i]) else None;
      ghost var before := device.objects;
      var r, pass := device.Create(RenderPass(width, height, targets[i], dsv));
      PassesStable(before, device.objects, width, height, targets, depthViews, hasDepth, passes);
      if r != Success {
        res := r;
        return;
      }
      PassesAppend(device.objects, width, height, targets, depthViews, hasDepth, passes, pass);
      passes := passes + [pass];
    }
    res := Success;
  }

  /** `n` images created as `desc`, one device request each, in order,
      stopping at the first failed request. `images` holds those made. */
  method CreateImageList(device: Device, desc: ObjectDesc, n: nat) returns (res: Result, images: seq<Handle>)
    modifies device
    ensures device.destroyed == old(device.destroyed)
    ensures old(device.objects) <= device.objects
    ensures StoppedAtFirstFailure(device.outcome, |old(device.objects)|, |device.objects|, res)
    ensures ImagesOf(device.objects, images, desc)
    ensures |images| <= n
    ensures res == Success ==> |images| == n
    ensures |device.objects| == |old(device.objects)| + |images| + (if res == Success then 0 else 1)
  {
    ghost var from := |device.objects|;
    images := [];
    for i := 0 to n
      invariant device.destroyed == old(device.destroyed)
      invariant old(device.objects) <= device.objects
      invariant from <= |device.objects| && AllSucceeded(device.outcome, from, |device.objects|)
      invariant |images| == i && ImagesOf(device.objects, images, desc)
      invariant |device.objects| == from + i
    {
      ghost var before := device.objects;
      var r, image := device.Create(desc);
      ImagesStable(before, device.objects, images, desc);
      if r != Success {
        res := r;
        return;
      }
      images := images + [image];
    }
    res := Success;
  }

  /** The non-null entries of `list`, in order. */
  function NonNull(list: seq<Option<Handle>>): (r: seq<Handle>)
    ensures |r| <= |list|
    ensures forall h {:trigger h in r} :: h in r <==> Some(h) in list
  {
    if list == [] then [] else NonNull(list[..|list| - 1]) + AsList(list[|list| - 1])
  }

  lemma NonNullPrefix(list: seq<Option<Handle>>, i: nat)
    requires i < |list|
    ensures NonNull(list[..i + 1]) == NonNull(list[..i]) + AsList(list[i])
  {
    assert list[..i + 1][..i] == list[..i];
  }

  /** Dropping the nulls keeps every entry exactly when there is none. */
  lemma {:induction false} NonNullKeepsAll(list: seq<Option<Handle>>)
    ensures |NonNull(list)| == |list| <==> forall i :: 0 <= i < |list| ==> list[i].Some?
  {
    if list != [] {
      var init := list[..|list| - 1];
      NonNullKeepsAll(init);
      if forall i :: 0 <= i < |list| ==> list[i].Some? {
        assert forall i :: 0 <= i < |init| ==> init[i].Some? by {
          forall i | 0 <= i < |init| ensures init[i].Some? {
            assert init[i] == list[i];
          }
        }
      } else {
        var k :| 0 <= k < |list| && list[k].None?;
        if k < |list| - 1 {
          assert init[k] == list[k];
        }
      }
    }
  }

  /** `grfx::Swapchain`, with the state of its three subclasses: the virtual
      swapchain's command buffers and the XR swapchain's sub-swapchain handles.
      `kind` says which subclass the object is. */
  class Swapchain {
    const kind: SwapchainKind
    const device: Device
    var createInfo: SwapchainCreateInfo
    var depthImages: seq<Handle>
    var colorImages: seq<Handle>
    var clearRenderTargets: seq<Handle>
    var loadRenderTargets: seq<Handle>
    var depthStencilViews: seq<Handle>
    var clearRenderPasses: seq<Handle>
    var loadRenderPasses: seq<Handle>
    /** The image index returned by the last acquire. */
    var currentImageIndex: U32
    /** `VirtualSwapchain::mCommandBuffers`; an entry is null when its creation failed. */
    var commandBuffers: seq<Option<Handle>>
    /** `XRSwapchain::mXrColorSwapchain` and `mXrDepthSwapchain`. */
    var xrColorSwapchain: Option<XrHandle>
    var xrDepthSwapchain: Option<XrHandle>

    function State(): SwapchainState
      reads this
    {
      SwapchainState(createInfo, depthImages, colorImages, clearRenderTargets, loadRenderTargets,
                     depthStencilViews, clearRenderPasses, loadRenderPasses, currentImageIndex,
                     commandBuffers, xrColorSwapchain, xrDepthSwapchain)
    }

    /** No per-image object is held. */
    ghost predicate Empty()
      reads this
    {
      depthImages == [] && colorImages == [] && clearRenderTargets == [] && loadRenderTargets == [] &&
      depthStencilViews == [] && clearRenderPasses == [] && loadRenderPasses == [] &&
      commandBuffers == [] && xrColorSwapchain == None && xrDepthSwapchain == None
    }

    /** The shape after a successful `Create`: every per-image list holds one
        entry per image, depth lists only when a depth format is set. */
    ghost predicate Created()
      reads this
    {
      var n := createInfo.imageCount;
      |colorImages| == n && |clearRenderTargets| == n && |loadRenderTargets| == n &&
      |clearRenderPasses| == n && |loadRenderPasses| == n &&
      |depthImages| == (if createInfo.depthFormat == Undefined then 0 else n) &&
      |depthStencilViews| == |depthImages|
    }

    /** Entry i of every view and pass list was built from entry i of the
        lists it depends on. */
    ghost predicate Wired()
      reads this, device
    {
      var objects := device.objects;
      ViewsOf(objects, colorImages, clearRenderTargets, Clear) &&
      ViewsOf(objects, colorImages, loadRenderTargets, Load) &&
      DepthViewsOf(objects, depthImages, depthStencilViews) &&
      PassesOf(objects, createInfo.width, createInfo.height, clearRenderTargets, depthStencilViews,
               depthImages != [], clearRenderPasses) &&
      PassesOf(objects, createInfo.width, createInfo.height, loadRenderTargets, depthStencilViews,
               depthImages != [], loadRenderPasses)
    }

    constructor (kind: SwapchainKind, device: Device)
      ensures this.kind == kind && this.device == device
      ensures Empty() && createInfo == DefaultCreateInfo && currentImageIndex == 0
    {
      this.kind := kind;
      this.device := device;
      createInfo := DefaultCreateInfo;
      depthImages, colorImages := [], [];
      clearRenderTargets, loadRenderTargets, depthStencilViews := [], [], [];
      clearRenderPasses, loadRenderPasses := [], [];
      currentImageIndex := 0;
      commandBuffers := [];
      xrColorSwapchain, xrDepthSwapchain := None, None;
    }

    function GetWidth(): (w: U32)
      reads this
      ensures w == createInfo.width
    {
      createInfo.width
    }

    function GetHeight(): (h: U32)
      reads this
      ensures h == createInfo.height
    {
      createInfo.height
    }

    /** The (possibly corrected) image count; after a successful `Create` it is
        the number of color images. */
    function GetImageCount(): (n: U32)
      reads this
      ensures Created() ==> n == |colorImages| == |clearRenderPasses| == |loadRenderPasses|
      ensures Created() && createInfo.depthFormat != Undefined ==> n == |depthImages| == |depthStencilViews|
    {
      createInfo.imageCount
    }

    function GetColorFormat(): (f: Format)
      reads this
      ensures f == createInfo.colorFormat
    {
      createInfo.colorFormat
    }

    function GetDepthFormat(): (f: Format)
      reads this
      ensures f == createInfo.depthFormat
    {
      createInfo.depthFormat
    }

    /** The index stored by the last acquire; untouched by every getter. */
    function GetCurrentImageIndex(): (i: U32)
      reads this
      ensures i == currentImageIndex
    {
      currentImageIndex
    }

    /** The default: callers must synchronise with semaphores and fences. */
    function ShouldSkipExternalSynchronization(): (skip: bool)
      ensures !skip
    {
      false
    }

    /** Checked `GetColorImage`: ERROR_OUT_OF_RANGE leaves `out` as it was. */
    function GetColorImage(imageIndex: U32, out: Option<Handle>): (r: Lookup)
      reads this
      ensures r.result == Success <==> imageIndex < |colorImages|
      ensures r.result == Success ==> r.out == Some(colorImages[imageIndex])
      ensures r.result != Success ==> r.result == ErrorOutOfRange && r.out == out
    {
      LookupIn(colorImages, imageIndex, out)
    }

    function GetDepthImage(imageIndex: U32, out: Option<Handle>): (r: Lookup)
      reads this
      ensures r.result == Success <==> imageIndex < |depthImages|
      ensures r.result == Success ==> r.out == Some(depthImages[imageIndex])
      ensures r.result != Success ==> r.result == ErrorOutOfRange && r.out == out
    {
      LookupIn(depthImages, imageIndex, out)
    }

    /** Checked `GetRenderPass`: the range check is against the CLEAR list
        only; CLEAR selects that list and every other op the LOAD list. */
    function GetRenderPass(imageIndex: U32, loadOp: LoadOp, out: Option<Handle>): (r: Lookup)
      requires imageIndex < |clearRenderPasses| && loadOp != Clear ==> imageIndex < |loadRenderPasses|
      reads this
      ensures r.result == Success <==> imageIndex < |clearRenderPasses|
      ensures r.result == Success && loadOp == Clear ==> r.out == Some(clearRenderPasses[imageIndex])
      ensures r.result == Success && loadOp != Clear ==> r.out == Some(loadRenderPasses[imageIndex])
      ensures r.result != Success ==> r.result == ErrorOutOfRange && r.out == out
    {
      if imageIndex >= |clearRenderPasses| then Lookup(ErrorOutOfRange, out)
      else if loadOp == Clear then Lookup(Success, Some(clearRenderPasses[imageIndex]))
      else Lookup(Success, Some(loadRenderPasses[imageIndex]))
    }

    /** Checked `GetRenderTargetView`, with the same selection rule as `GetRenderPass`. */
    function GetRenderTargetView(imageIndex: U32, loadOp: LoadOp, out: Option<Handle>): (r: Lookup)
      requires imageIndex < |clearRenderTargets| && loadOp != Clear ==> imageIndex < |loadRenderTargets|
      reads this
      ensures r.result == Success <==> imageIndex < |clearRenderTargets|
      ensures r.result == Success && loadOp == Clear ==> r.out == Some(clearRenderTargets[imageIndex])
      ensures r.result == Success && loadOp != Clear ==> r.out == Some(loadRenderTargets[imageIndex])
      ensures r.result != Success ==> r.result == ErrorOutOfRange && r.out == out
    {
      if imageIndex >= |clearRenderTargets| then Lookup(ErrorOutOfRange, out)
      else if loadOp == Clear then Lookup(Success, Some(clearRenderTargets[imageIndex]))
      else Lookup(Success, Some(loadRenderTargets[imageIndex]))
    }

    function GetDepthStencilView(imageIndex: U32, out: Option<Handle>): (r: Lookup)
      reads this
      ensures r.result == Success <==> imageIndex < |depthStencilViews|
      ensures r.result == Success ==> r.out == Some(depthStencilViews[imageIndex])
      ensures r.result != Success ==> r.result == ErrorOutOfRange && r.out == out
    {
      LookupIn(depthStencilViews, imageIndex, out)
    }

    /** Convenience `GetColorImage`: null for an index out of range. */
    function GetColorImageOrNull(imageIndex: U32): (image: Option<Handle>)
      reads this
      ensures image.Some? <==> imageIndex < |colorImages|
      ensures image.Some? ==> image.value == colorImages[imageIndex]
    {
      GetColorImage(imageIndex, None).out
    }

    function GetDepthImageOrNull(imageIndex: U32): (image: Option<Handle>)
      reads this
      ensures image.Some? <==> imageIndex < |depthImages|
      ensures image.Some? ==> image.value == depthImages[imageIndex]
    {
      GetDepthImage(imageIndex, None).out
    }

    /** Convenience `GetRenderPass`; the load op defaults to CLEAR. */
    function GetRenderPassOrNull(imageIndex: U32, loadOp: LoadOp := Clear): (pass: Option<Handle>)
      requires imageIndex < |clearRenderPasses| && loadOp != Clear ==> imageIndex < |loadRenderPasses|
      reads this
      ensures pass.Some? <==> imageIndex < |clearRenderPasses|
      ensures pass.Some? ==> pass.value == if loadOp == Clear then clearRenderPasses[imageIndex]
                                           else loadRenderPasses[imageIndex]
    {
      GetRenderPass(imageIndex, loadOp, None).out
    }

    /** Convenience `GetRenderTargetView`; the load op defaults to CLEAR. */
    function GetRenderTargetViewOrNull(imageIndex: U32, loadOp: LoadOp := Clear): (view: Option<Handle>)
      requires imageIndex < |clearRenderTargets| && loadOp != Clear ==> imageIndex < |loadRenderTargets|
      reads this
      ensures view.Some? <==> imageIndex < |clearRenderTargets|
      ensures view.Some? ==> view.value == if loadOp == Clear then clearRenderTargets[imageIndex]
                                           else loadRenderTargets[imageIndex]
    {
      GetRenderTargetView(imageIndex, loadOp, None).out
    }

    function GetDepthStencilViewOrNull(imageIndex: U32): (view: Option<Handle>)
      reads this
      ensures view.Some? <==> imageIndex < |depthStencilViews|
      ensures view.Some? ==> view.value == depthStencilViews[imageIndex]
    {
      GetDepthStencilView(imageIndex, None).out
    }

    /** One clear view and one load view per color image, and one depth-stencil
        view per image when there are depth images. Stops at the first failed
        device request; the views created before it stay in the lists. */
    method CreateRenderTargets() returns (res: Result, clearAdded: seq<Handle>,
                                          loadAdded: seq<Handle>, depthAdded: seq<Handle>)
      requires depthImages != [] ==> |depthImages| >= |colorImages|
      modifies this, device
      ensures device.destroyed == old(device.destroyed)
      ensures old(device.objects) <= device.objects
      ensures State() == old(State()).(clearRenderTargets := clearRenderTargets,
                                       loadRenderTargets := loadRenderTargets,
                                       depthStencilViews := depthStencilViews)
      ensures StoppedAtFirstFailure(device.outcome, |old(device.objects)|, |device.objects|, res)
      ensures clearRenderTargets == old(clearRenderTargets) + clearAdded
      ensures loadRenderTargets == old(loadRenderTargets) + loadAdded
      ensures depthStencilViews == old(depthStencilViews) + depthAdded
      ensures ViewsOf(device.objects, colorImages, clearAdded, Clear)
      ensures ViewsOf(device.objects, colorImages, loadAdded, Load)
      ensures DepthViewsOf(device.objects, depthImages, depthAdded)
      ensures |loadAdded| <= |clearAdded| <= |loadAdded| + 1
      ensures depthImages != [] ==> |depthAdded| <= |loadAdded| <= |depthAdded| + 1
      ensures depthImages == [] ==> depthAdded == []
      ensures res == Success ==> |clearAdded| == |loadAdded| == |colorImages|
      ensures res == Success && depthImages != [] ==> |depthAdded| == |colorImages|
      ensures |device.objects| == |old(device.objects)| + |clearAdded| + |loadAdded| + |depthAdded| +
                                  (if res == Success then 0 else 1)
    {
      res, clearAdded, loadAdded, depthAdded := CreateViewLists(device, colorImages, depthImages);
      clearRenderTargets := clearRenderTargets + clearAdded;
      loadRenderTargets := loadRenderTargets + loadAdded;
      depthStencilViews := depthStencilViews + depthAdded;
    }

    /** One CLEAR pass per image over clear view i, then one LOAD pass per image
        over load view i; each pass also uses depth-stencil view i when there
        are depth images. Stops at the first failed device request, keeping the
        passes made before it; the LOAD passes are only started once every
        CLEAR pass exists. */
    method CreateRenderPasses() returns (res: Result, clearAdded: seq<Handle>, loadAdded: seq<Handle>)
      requires |clearRenderTargets| >= |colorImages| && |loadRenderTargets| >= |colorImages|
      requires depthImages != [] ==> |depthStencilViews| >= |colorImages|
      modifies this, device
      ensures device.destroyed == old(device.destroyed)
      ensures old(device.objects) <= device.objects
      ensures State() == old(State()).(clearRenderPasses := clearRenderPasses, loadRenderPasses := loadRenderPasses)
      ensures StoppedAtFirstFailure(device.outcome, |old(device.objects)|, |device.objects|, res)
      ensures clearRenderPasses == old(clearRenderPasses) + clearAdded
      ensures loadRenderPasses == old(loadRenderPasses) + loadAdded
      ensures PassesOf(device.objects, createInfo.width, createInfo.height, clearRenderTargets,
                       depthStencilViews, depthImages != [], clearAdded)
      ensures PassesOf(device.objects, createInfo.width, createInfo.height, loadRenderTargets,
                       depthStencilViews, depthImages != [], loadAdded)
      ensures |clearAdded| <= |colorImages| && |loadAdded| <= |colorImages|
      ensures loadAdded != [] ==> |clearAdded| == |colorImages|
      ensures res == Success ==> |clearAdded| == |loadAdded| == |colorImages|
      ensures |device.objects| == |old(device.objects)| + |clearAdded| + |loadAdded| + (if res == Success then 0 else 1)
    {
      var hasDepth := depthImages != [];
      res, clearAdded := CreatePassList(device, createInfo.width, createInfo.height, clearRenderTargets,
                                        depthStencilViews, hasDepth, |colorImages|);
      clearRenderPasses := clearRenderPasses + clearAdded;
      loadAdded := [];
      if res != Success {
        return;
      }
      ghost var middle := device.objects;
      res, loadAdded := CreatePassList(device, createInfo.width, createInfo.height, loadRenderTargets,
                                       depthStencilViews, hasDepth, |colorImages|);
      loadRenderPasses := loadRenderPasses + loadAdded;
      PassesStable(middle, device.objects, createInfo.width, createInfo.height, clearRenderTargets,
                   depthStencilViews, hasDepth, clearAdded);
    }

    /** `CreateDepthImages`, which the virtual and the surface swapchain define
        identically: nothing to do without a depth format; refused when depth
        images already exist; otherwise one depth-stencil target per image,
        stopping at the first failure with the images made so far kept. */
    method CreateDepthImages() returns (res: Result)
      modifies this, device
      ensures device.destroyed == old(device.destroyed)
      ensures old(device.objects) <= device.objects
      ensures State() == old(State()).(depthImages := depthImages)
      ensures createInfo.depthFormat == Undefined ==>
                res == Success && depthImages == old(depthImages) && device.objects == old(device.objects)
      ensures createInfo.depthFormat != Undefined && old(depthImages) != [] ==>
                res == ErrorGrfxOperationNotPermitted && depthImages == old(depthImages) &&
                device.objects == old(device.objects)
      ensures createInfo.depthFormat != Undefined && old(depthImages) == [] ==>
                StoppedAtFirstFailure(device.outcome, |old(device.objects)|, |device.objects|, res) &&
                ImagesOf(device.objects, depthImages,
                         DepthStencilTarget(createInfo.width, createInfo.height, createInfo.depthFormat)) &&
                |depthImages| <= createInfo.imageCount &&
                (res == Success ==> |depthImages| == createInfo.imageCount) &&
                |device.objects| == |old(device.objects)| + |depthImages| + (if res == Success then 0 else 1)
    {
      if createInfo.depthFormat == Undefined {
        return Success;
      }
      if depthImages != [] {
        return ErrorGrfxOperationNotPermitted;
      }
      var images;
      res, images := CreateImageList(device, DepthStencilTarget(createInfo.width, createInfo.height, createInfo.depthFormat),
                                     createInfo.imageCount);
      depthImages := images;
    }

    method DestroyColorImages()
      modifies this, device
      ensures State() == old(State()).(colorImages := [])
      ensures device.destroyed == old(device.destroyed) + old(colorImages)
      ensures device.objects == old(device.objects)
    {
      DestroyEach(device, colorImages);
      colorImages := [];
    }

    method DestroyDepthImages()
      modifies this, device
      ensures State() == old(State()).(depthImages := [])
      ensures device.destroyed == old(device.destroyed) + old(depthImages)
      ensures device.objects == old(device.objects)
    {
      DestroyEach(device, depthImages);
      depthImages := [];
    }

    /** Clear views, then load views, then depth-stencil views. */
    method DestroyRenderTargets()
      modifies this, device
      ensures State() == old(State()).(clearRenderTargets := [], loadRenderTargets := [], depthStencilViews := [])
      ensures device.destroyed == old(device.destroyed) + old(clearRenderTargets) + old(loadRenderTargets)
                                  + old(depthStencilViews)
      ensures device.objects == old(device.objects)
    {
      DestroyEach(device, clearRenderTargets);
      clearRenderTargets := [];
      DestroyEach(device, loadRenderTargets);
      loadRenderTargets := [];
      DestroyEach(device, depthStencilViews);
      depthStencilViews := [];
    }

    /** Clear passes, then load passes. */
    method DestroyRenderPasses()
      modifies this, device
      ensures State() == old(State()).(clearRenderPasses := [], loadRenderPasses := [])
      ensures device.destroyed == old(device.destroyed) + old(clearRenderPasses) + old(loadRenderPasses)
      ensures device.objects == old(device.objects)
    {
      DestroyEach(device, clearRenderPasses);
      clearRenderPasses := [];
      DestroyEach(device, loadRenderPasses);
      loadRenderPasses := [];
    }
  }

  /** A swapchain with no views and no passes yet is wired, whatever images it holds. */
  lemma UnbuiltIsWired(sc: Swapchain)
    requires sc.clearRenderTargets == [] && sc.loadRenderTargets == [] && sc.depthStencilViews == []
    requires sc.clearRenderPasses == [] && sc.loadRenderPasses == []
    ensures sc.Wired()
  {
  }

  /** The convenience getters agree with the checked ones called with a null
      out-parameter, and a checked getter that fails leaves any out-parameter alone. */
  lemma ConvenienceGettersAgree(sc: Swapchain, imageIndex: U32, loadOp: LoadOp, out: Option<Handle>)
    ensures sc.GetColorImageOrNull(imageIndex) ==
            (if sc.GetColorImage(imageIndex, out).result == Success then sc.GetColorImage(imageIndex, out).out else None)
    ensures sc.GetDepthImageOrNull(imageIndex) ==
            (if sc.GetDepthImage(imageIndex, out).result == Success then sc.GetDepthImage(imageIndex, out).out else None)
    ensures sc.GetDepthStencilViewOrNull(imageIndex) ==
            (if sc.GetDepthStencilView(imageIndex, out).result == Success then sc.GetDepthStencilView(imageIndex, out).out else None)
    ensures (imageIndex < |sc.clearRenderPasses| && loadOp != Clear ==> imageIndex < |sc.loadRenderPasses|) ==>
              sc.GetRenderPassOrNull(imageIndex, loadOp) ==
              (if sc.GetRenderPass(imageIndex, loadOp, out).result == Success then sc.GetRenderPass(imageIndex, loadOp, out).out
               else None)
    ensures (imageIndex < |sc.clearRenderTargets| && loadOp != Clear ==> imageIndex < |sc.loadRenderTargets|) ==>
              sc.GetRenderTargetViewOrNull(imageIndex, loadOp) ==
              (if sc.GetRenderTargetView(imageIndex, loadOp, out).result == Success
               then sc.GetRenderTargetView(imageIndex, loadOp, out).out else None)
  {
  }
}
