/** The collaborators the swapchain calls into, reduced to what the swapchain
    can observe: the device as a fallible allocator that remembers what it made,
    the queue as a command-buffer allocator with a log of submissions, and the
    OpenXR compositor as an oracle for image indices with a log of calls. */
module GrfxDevice {
  import opened GrfxTypes

  /** What a device object was created as. */
  datatype ObjectDesc =
    /** `ImageCreateInfo::RenderTarget2D(width, height, colorFormat)`. */
    | ColorTarget(width: U32, height: U32, format: Format)
    /** `ImageCreateInfo::DepthStencilTarget(width, height, depthFormat)`. */
    | DepthStencilTarget(width: U32, height: U32, format: Format)
    /** A render-target view of `image` whose attachment load op is `loadOp`. */
    | RenderTargetView(image: Handle, loadOp: LoadOp)
    /** A depth-stencil view of `image` (depth and stencil load ops CLEAR). */
    | DepthStencilView(image: Handle)
    /** A one-target render pass over `renderTarget`, with `depthStencil` or none. */
    | RenderPass(width: U32, height: U32, renderTarget: Handle, depthStencil: Option<Handle>)

  /** `objects[h.id]` records that the device created `h` as `desc`. */
  ghost predicate Holds(objects: seq<Option<ObjectDesc>>, h: Handle, desc: ObjectDesc)
  {
    h.id < |objects| && objects[h.id] == Some(desc)
  }

  /** The requests numbered `from` up to `to` (exclusive) all succeeded. */
  ghost predicate AllSucceeded(outcome: nat -> Result, from: nat, to: nat)
  {
    forall k :: from <= k < to ==> outcome(k) == Success
  }

  /** A sequence of requests `from` .. `to` that stops at its first failure:
      SUCCESS when every request succeeded, otherwise the failing request is the
      last one and `res` is its code. */
  ghost predicate StoppedAtFirstFailure(outcome: nat -> Result, from: nat, to: nat, res: Result)
  {
    from <= to &&
    if res == Success then AllSucceeded(outcome, from, to)
    else from < to && AllSucceeded(outcome, from, to - 1) && outcome(to - 1) == res
  }

  /** A run that stops at its first failure may be preceded by requests that
      all succeeded. */
  lemma StoppedAfterSuccesses(outcome: nat -> Result, from: nat, mid: nat, to: nat, res: Result)
    requires from <= mid && AllSucceeded(outcome, from, mid)
    requires StoppedAtFirstFailure(outcome, mid, to, res)
    ensures StoppedAtFirstFailure(outcome, from, to, res)
  {
  }

  /** `grfx::Device` as a fallible allocator. Request number k succeeds exactly
      when `outcome(k)` is SUCCESS, and then yields the fresh handle `Handle(k)`. */
  class Device {
    /** Entry k says what creation request number k made, or nothing when it
        failed; the number of requests so far is the length. */
    var objects: seq<Option<ObjectDesc>>
    /** The objects destroyed so far, in order. */
    var destroyed: seq<Handle>
    /** The result of each creation request, by request number. */
    const outcome: nat -> Result

    constructor (outcome: nat -> Result)
      ensures objects == [] && destroyed == []
      ensures this.outcome == outcome
    {
      this.outcome := outcome;
      objects := [];
      destroyed := [];
    }

    /** `CreateImage`, `CreateRenderTargetView`, `CreateDepthStencilView` and
        `CreateRenderPass`: one fallible creation request. */
    method Create(desc: ObjectDesc) returns (res: Result, h: Handle)
      modifies this
      ensures res == outcome(|old(objects)|) && h == Handle(|old(objects)|)
      ensures objects == old(objects) + [if res == Success then Some(desc) else None]
      ensures destroyed == old(destroyed)
    {
      res := outcome(|objects|);
      h := Handle(|objects|);
      objects := objects + [if res == Success then Some(desc) else None];
    }

    /** `DestroyImage`, `DestroyRenderTargetView`, `DestroyDepthStencilView`,
        `DestroyRenderPass`. */
    method Destroy(h: Handle)
      modifies this
      ensures destroyed == old(destroyed) + [h]
      ensures objects == old(objects)
    {
      destroyed := destroyed + [h];
    }
  }

  /** `grfx::SubmitInfo`: the command buffers, the semaphores waited on and
      signalled (an entry may be null), and the fence (or none). */
  datatype Submission = Submission(
    commandBuffers: seq<Handle>,
    waitSemaphores: seq<SyncObject>,
    signalSemaphores: seq<Option<SyncObject>>,
    fence: Option<SyncObject>)

  /** What `CreateCommandBuffer` request number `k` leaves in its out-parameter:
      the new command buffer, or null when the request failed. */
  function CommandBufferSlot(outcome: nat -> Result, k: nat): (slot: Option<Handle>)
    ensures slot.Some? <==> outcome(k) == Success
    ensures slot.Some? ==> slot.value == Handle(k)
  {
    if outcome(k) == Success then Some(Handle(k)) else None
  }

  /** `grfx::Queue`, reduced to command-buffer creation and submission. */
  class Queue {
    /** Every submission so far, in order. */
    var submissions: seq<Submission>
    /** The number of `CreateCommandBuffer` requests so far. */
    var requests: nat
    /** The command buffers destroyed so far, in order. */
    var destroyed: seq<Handle>
    /** The result of each `CreateCommandBuffer` request, by request number. */
    const outcome: nat -> Result

    constructor (outcome: nat -> Result)
      ensures submissions == [] && requests == 0 && destroyed == []
      ensures this.outcome == outcome
    {
      this.outcome := outcome;
      submissions := [];
      requests := 0;
      destroyed := [];
    }

    /** `CreateCommandBuffer`: the out-parameter stays null when creation fails. */
    method CreateCommandBuffer() returns (res: Result, commandBuffer: Option<Handle>)
      modifies this
      ensures requests == old(requests) + 1 && res == outcome(old(requests))
      ensures commandBuffer == CommandBufferSlot(outcome, old(requests))
      ensures submissions == old(submissions) && destroyed == old(destroyed)
    {
      res := outcome(requests);
      commandBuffer := CommandBufferSlot(outcome, requests);
      requests := requests + 1;
    }

    method DestroyCommandBuffer(commandBuffer: Handle)
      modifies this
      ensures destroyed == old(destroyed) + [commandBuffer]
      ensures submissions == old(submissions) && requests == old(requests)
    {
      destroyed := destroyed + [commandBuffer];
    }

    method Submit(s: Submission)
      modifies this
      ensures submissions == old(submissions) + [s]
      ensures requests == old(requests) && destroyed == old(destroyed)
    {
      submissions := submissions + [s];
    }
  }

  /** The OpenXR calls the XR swapchain makes. */
  datatype XrCall =
    | AcquireImage(swapchain: XrHandle)
    | WaitImage(swapchain: XrHandle)
    | DestroySwapchain(swapchain: XrHandle)

  /** The OpenXR runtime: `xrAcquireSwapchainImage` answers with the index the
      compositor chooses, which depends on the sub-swapchain and on how many
      calls came before. The calls are checked by assertion in the source and
      are modelled as not failing. */
  class Compositor {
    /** Every call so far, in order. */
    var calls: seq<XrCall>
    /** The index an acquire on `swapchain` returns when it is call number k. */
    const acquireIndex: (XrHandle, nat) -> U32

    constructor (acquireIndex: (XrHandle, nat) -> U32)
      ensures calls == [] && this.acquireIndex == acquireIndex
    {
      this.acquireIndex := acquireIndex;
      calls := [];
    }

    /** `xrAcquireSwapchainImage`. */
    method Acquire(swapchain: XrHandle) returns (index: U32)
      modifies this
      ensures index == acquireIndex(swapchain, |old(calls)|)
      ensures calls == old(calls) + [AcquireImage(swapchain)]
    {
      index := acquireIndex(swapchain, |calls|);
      calls := calls + [AcquireImage(swapchain)];
    }

    /** `xrWaitSwapchainImage` with an infinite timeout. */
    method Wait(swapchain: XrHandle)
      modifies this
      ensures calls == old(calls) + [WaitImage(swapchain)]
    {
      calls := calls + [WaitImage(swapchain)];
    }

    /** `xrDestroySwapchain`. */
    method Destroy(swapchain: XrHandle)
      modifies this
      ensures calls == old(calls) + [DestroySwapchain(swapchain)]
    {
      calls := calls + [DestroySwapchain(swapchain)];
    }
  }
}
