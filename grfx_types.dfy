/** Value types shared by the swapchain family: result codes, 32-bit integers,
    formats, load operations, opaque handles and the swapchain type tag. */
module GrfxTypes {

  /** 2^32: the number of values of a `uint32_t`. */
  const U32_LIMIT: int := 0x1_0000_0000
  type U32 = x: int | 0 <= x < U32_LIMIT
  /** `std::numeric_limits<uint32_t>::max()`. */
  const U32_MAX: U32 := 0xFFFF_FFFF

  /** `a - b` evaluated in `uint32_t` arithmetic (wraps below zero). */
  function SubU32(a: U32, b: U32): (r: U32)
    ensures a >= b ==> r == a - b
    ensures a < b ==> r == a - b + U32_LIMIT
  {
    (a - b) % U32_LIMIT
  }

  /** `a + b` evaluated in `uint32_t` arithmetic (wraps above U32_MAX). */
  function AddU32(a: U32, b: U32): (r: U32)
    ensures a + b < U32_LIMIT ==> r == a + b
    ensures a + b >= U32_LIMIT ==> r == a + b - U32_LIMIT
  {
    (a + b) % U32_LIMIT
  }

  datatype Option<+T> = None | Some(value: T)

  /** The `ppx::Result` codes this core produces or forwards. Every other code a
      collaborator may return is carried by `ErrorOther`. */
  datatype Result =
    | Success
    | ErrorFailed
    | ErrorOutOfRange
    | ErrorUnexpectedNullArgument
    | ErrorGrfxOperationNotPermitted
    | ErrorApiFailure
    | ErrorOther(code: int)

  /** `ppx::Failed`: every code other than SUCCESS is a failure. */
  predicate Failed(r: Result) {
    r != Success
  }

  /** `grfx::SwapchainType`: four tags, UNKNOWN first. */
  datatype SwapchainType = Unknown | Surface | Virtual | Xr

  /** The enumerator value of a tag (the enum counts up from UNKNOWN = 0). */
  function TypeValue(t: SwapchainType): (v: nat)
    ensures v < 4
    ensures v == 0 <==> t == Unknown
  {
    match t
    case Unknown => 0
    case Surface => 1
    case Virtual => 2
    case Xr => 3
  }

  /** The tag with enumerator value `v`, if there is one. */
  function TypeFromValue(v: nat): (t: Option<SwapchainType>)
    ensures t.Some? <==> v < 4
    ensures t.Some? ==> TypeValue(t.value) == v
  {
    if v == 0 then Some(Unknown)
    else if v == 1 then Some(Surface)
    else if v == 2 then Some(Virtual)
    else if v == 3 then Some(Xr)
    else None
  }

  /** Distinct tags have distinct values, and every tag is recovered from its value. */
  lemma TypeValueRoundTrip(t: SwapchainType, u: SwapchainType)
    ensures TypeFromValue(TypeValue(t)) == Some(t)
    ensures TypeValue(t) == TypeValue(u) ==> t == u
  {
  }

  /** `grfx::Format`: FORMAT_UNDEFINED or some concrete format. */
  datatype Format = Undefined | Defined(code: nat)

  /** `grfx::PresentMode`: the default IMMEDIATE or some other mode. */
  datatype PresentMode = Immediate | OtherPresentMode(code: nat)

  /** `grfx::AttachmentLoadOp`: the two ops the swapchain creates, or any other. */
  datatype LoadOp = Clear | Load | OtherLoadOp(code: nat)

  /** An opaque, non-null device object (image, view, render pass, command buffer). */
  datatype Handle = Handle(id: nat)

  /** An opaque, non-null semaphore or fence. */
  datatype SyncObject = SyncObject(id: nat)

  /** An opaque, non-null presentation surface. */
  datatype SurfaceRef = SurfaceRef(id: nat)

  /** An opaque, non-null OpenXR swapchain handle. */
  datatype XrHandle = XrHandle(id: nat)
}
