// Model of the pure mapping helpers of the IGL Vulkan backend
// (src/igl/vulkan/Common.cpp): VkResult to igl::Result, enum conversions,
// sample-count rounding, layer selection and image-plane counts.

module VulkanCommon {
  import opened IglCore

  // ---------------------------------------------------------------------
  // VkResult values (vulkan_core.h). VkResult is a C enum, so any int may
  // be passed; the named ones are those the mapping distinguishes.
  // ---------------------------------------------------------------------

  const VK_SUCCESS: int := 0
  const VK_NOT_READY: int := 1
  const VK_ERROR_OUT_OF_HOST_MEMORY: int := -1
  const VK_ERROR_OUT_OF_DEVICE_MEMORY: int := -2
  const VK_ERROR_INITIALIZATION_FAILED: int := -3
  const VK_ERROR_DEVICE_LOST: int := -4
  const VK_ERROR_LAYER_NOT_PRESENT: int := -6
  const VK_ERROR_EXTENSION_NOT_PRESENT: int := -7
  const VK_ERROR_FEATURE_NOT_PRESENT: int := -8
  const VK_ERROR_INCOMPATIBLE_DRIVER: int := -9
  const VK_ERROR_TOO_MANY_OBJECTS: int := -10
  const VK_ERROR_FORMAT_NOT_SUPPORTED: int := -11
  const VK_ERROR_OUT_OF_POOL_MEMORY: int := -1000069000

  /**
   * igl::Result: a code and a message. The message of a failed VkResult is
   * the driver's name for it (ivkGetVulkanResultString, not part of this
   * model), so it is carried as the VkResult value it was made from.
   */
  datatype Result = Result(code: ResultCode, fromVkResult: int)
  {
    predicate IsOk() { code == Ok }
  }

  /** The error classes of section "Return Codes" of the Vulkan specification, as IGL groups them. */
  predicate IsMissingCapability(r: int) {
    r == VK_ERROR_LAYER_NOT_PRESENT || r == VK_ERROR_EXTENSION_NOT_PRESENT || r == VK_ERROR_FEATURE_NOT_PRESENT
  }

  predicate IsUnsupportedDriverOrFormat(r: int) {
    r == VK_ERROR_INCOMPATIBLE_DRIVER || r == VK_ERROR_FORMAT_NOT_SUPPORTED
  }

  predicate IsOutOfResources(r: int) {
    r == VK_ERROR_OUT_OF_HOST_MEMORY || r == VK_ERROR_OUT_OF_DEVICE_MEMORY ||
    r == VK_ERROR_OUT_OF_POOL_MEMORY || r == VK_ERROR_TOO_MANY_OBJECTS
  }

  /** getResultFromVkResult: success is Ok; every other value is classified, RuntimeError by default. */
  function GetResultFromVkResult(r: int): (res: Result)
    ensures res.IsOk() <==> r == VK_SUCCESS
    ensures res.code == Unimplemented <==> IsMissingCapability(r)
    ensures res.code == Unsupported <==> IsUnsupportedDriverOrFormat(r)
    ensures res.code == ArgumentOutOfRange <==> IsOutOfResources(r)
    ensures res.code == RuntimeError <==>
      r != VK_SUCCESS && !IsMissingCapability(r) && !IsUnsupportedDriverOrFormat(r) && !IsOutOfResources(r)
    ensures res.fromVkResult == r
  {
    if r == VK_SUCCESS then Result(Ok, r)
    else if r == VK_ERROR_LAYER_NOT_PRESENT || r == VK_ERROR_EXTENSION_NOT_PRESENT
         || r == VK_ERROR_FEATURE_NOT_PRESENT then Result(Unimplemented, r)
    else if r == VK_ERROR_INCOMPATIBLE_DRIVER || r == VK_ERROR_FORMAT_NOT_SUPPORTED then Result(Unsupported, r)
    else if r == VK_ERROR_OUT_OF_HOST_MEMORY || r == VK_ERROR_OUT_OF_DEVICE_MEMORY
         || r == VK_ERROR_OUT_OF_POOL_MEMORY || r == VK_ERROR_TOO_MANY_OBJECTS then Result(ArgumentOutOfRange, r)
    else Result(RuntimeError, r)
  }

  /** Non-error status codes (VK_NOT_READY, VK_INCOMPLETE, ...) are not Ok either. */
  lemma NonSuccessStatusIsRuntimeError(r: int)
    requires r > 0
    ensures GetResultFromVkResult(r).code == RuntimeError
  {
  }

  /** The out-parameter that setResultFrom writes through. */
  class ResultSlot {
    var value: Result
    constructor (initial: Result)
      ensures value == initial
    {
      value := initial;
    }
  }

  /** setResultFrom: nothing for a null pointer, otherwise the mapped result is stored. */
  method SetResultFrom(outResult: ResultSlot?, r: int)
    modifies outResult
    ensures outResult != null ==> outResult.value == GetResultFromVkResult(r)
    ensures outResult != null ==> (outResult.value.IsOk() <==> r == VK_SUCCESS)
  {
    if outResult == null {
      return;
    }
    outResult.value := GetResultFromVkResult(r);
  }

  // ---------------------------------------------------------------------
  // Stencil operations (VkStencilOp values 0..7)
  // ---------------------------------------------------------------------

  datatype StencilOperation =
    Keep | Zero | Replace | IncrementClamp | DecrementClamp | Invert | IncrementWrap | DecrementWrap

  const VK_STENCIL_OP_KEEP: int := 0
  const VK_STENCIL_OP_ZERO: int := 1
  const VK_STENCIL_OP_REPLACE: int := 2
  const VK_STENCIL_OP_INCREMENT_AND_CLAMP: int := 3
  const VK_STENCIL_OP_DECREMENT_AND_CLAMP: int := 4
  const VK_STENCIL_OP_INVERT: int := 5
  const VK_STENCIL_OP_INCREMENT_AND_WRAP: int := 6
  const VK_STENCIL_OP_DECREMENT_AND_WRAP: int := 7

  function StencilOperationToVkStencilOp(op: StencilOperation): (r: int)
    ensures VK_STENCIL_OP_KEEP <= r <= VK_STENCIL_OP_DECREMENT_AND_WRAP
  {
    match op
    case Keep => VK_STENCIL_OP_KEEP
    case Zero => VK_STENCIL_OP_ZERO
    case Replace => VK_STENCIL_OP_REPLACE
    case IncrementClamp => VK_STENCIL_OP_INCREMENT_AND_CLAMP
    case DecrementClamp => VK_STENCIL_OP_DECREMENT_AND_CLAMP
    case Invert => VK_STENCIL_OP_INVERT
    case IncrementWrap => VK_STENCIL_OP_INCREMENT_AND_WRAP
    case DecrementWrap => VK_STENCIL_OP_DECREMENT_AND_WRAP
  }

  /** The reverse table: each Vulkan stencil op comes from exactly one IGL operation. */
  function StencilOperationFromVk(v: int): (op: StencilOperation)
    requires VK_STENCIL_OP_KEEP <= v <= VK_STENCIL_OP_DECREMENT_AND_WRAP
  {
    if v == 0 then Keep else if v == 1 then Zero else if v == 2 then Replace
    else if v == 3 then IncrementClamp else if v == 4 then DecrementClamp
    else if v == 5 then Invert else if v == 6 then IncrementWrap else DecrementWrap
  }

  lemma StencilOperationRoundTrip(op: StencilOperation)
    ensures StencilOperationFromVk(StencilOperationToVkStencilOp(op)) == op
  {
  }

  lemma StencilOperationInjective(a: StencilOperation, b: StencilOperation)
    ensures StencilOperationToVkStencilOp(a) == StencilOperationToVkStencilOp(b) ==> a == b
  {
    StencilOperationRoundTrip(a);
    StencilOperationRoundTrip(b);
  }

  // ---------------------------------------------------------------------
  // Compare functions (VkCompareOp values 0..7)
  // ---------------------------------------------------------------------

  datatype CompareFunction = Never | Less | Equal | LessEqual | Greater | NotEqual | GreaterEqual | AlwaysPass

  const VK_COMPARE_OP_NEVER: int := 0
  const VK_COMPARE_OP_LESS: int := 1
  const VK_COMPARE_OP_EQUAL: int := 2
  const VK_COMPARE_OP_LESS_OR_EQUAL: int := 3
  const VK_COMPARE_OP_GREATER: int := 4
  const VK_COMPARE_OP_NOT_EQUAL: int := 5
  const VK_COMPARE_OP_GREATER_OR_EQUAL: int := 6
  const VK_COMPARE_OP_ALWAYS: int := 7

  function CompareFunctionToVkCompareOp(f: CompareFunction): (r: int)
    ensures VK_COMPARE_OP_NEVER <= r <= VK_COMPARE_OP_ALWAYS
  {
    match f
    case Never => VK_COMPARE_OP_NEVER
    case Less => VK_COMPARE_OP_LESS
    case Equal => VK_COMPARE_OP_EQUAL
    case LessEqual => VK_COMPARE_OP_LESS_OR_EQUAL
    case Greater => VK_COMPARE_OP_GREATER
    case NotEqual => VK_COMPARE_OP_NOT_EQUAL
    case GreaterEqual => VK_COMPARE_OP_GREATER_OR_EQUAL
    case AlwaysPass => VK_COMPARE_OP_ALWAYS
  }

  /**
   * The meaning of a compare op on a reference value a and a compared value b,
   * as section "Depth Comparison" of the Vulkan specification defines it for
   * each VkCompareOp, and as igl::CompareFunction names it.
   */
  predicate VkCompareOpPasses(op: int, a: int, b: int)
    requires VK_COMPARE_OP_NEVER <= op <= VK_COMPARE_OP_ALWAYS
  {
    if op == 0 then false else if op == 1 then b < a else if op == 2 then b == a
    else if op == 3 then b <= a else if op == 4 then b > a else if op == 5 then b != a
    else if op == 6 then b >= a else true
  }

  predicate ComparePasses(f: CompareFunction, a: int, b: int) {
    match f
    case Never => false
    case Less => b < a
    case Equal => b == a
    case LessEqual => b <= a
    case Greater => b > a
    case NotEqual => b != a
    case GreaterEqual => b >= a
    case AlwaysPass => true
  }

  /** The conversion keeps the meaning of every compare function. */
  lemma CompareFunctionPreservesMeaning(f: CompareFunction, a: int, b: int)
    ensures VkCompareOpPasses(CompareFunctionToVkCompareOp(f), a, b) == ComparePasses(f, a, b)
  {
  }

  lemma CompareFunctionInjective(f: CompareFunction, g: CompareFunction)
    ensures CompareFunctionToVkCompareOp(f) == CompareFunctionToVkCompareOp(g) ==> f == g
  {
  }

  // ---------------------------------------------------------------------
  // Resource storage to VkMemoryPropertyFlags
  // ---------------------------------------------------------------------

  const VK_MEMORY_PROPERTY_DEVICE_LOCAL_BIT: bv32 := 0x1
  const VK_MEMORY_PROPERTY_HOST_VISIBLE_BIT: bv32 := 0x2
  const VK_MEMORY_PROPERTY_HOST_COHERENT_BIT: bv32 := 0x4
  const VK_MEMORY_PROPERTY_LAZILY_ALLOCATED_BIT: bv32 := 0x10

  /** Invalid storage asserts in debug builds; a release build returns no flags. */
  function ResourceStorageToVkMemoryPropertyFlags(s: ResourceStorage): (flags: bv32)
    ensures (flags & VK_MEMORY_PROPERTY_DEVICE_LOCAL_BIT != 0) <==> (s == Private || s == Memoryless)
    ensures (flags & VK_MEMORY_PROPERTY_HOST_VISIBLE_BIT != 0) <==> (s == Shared || s == Managed)
    ensures (flags & VK_MEMORY_PROPERTY_HOST_COHERENT_BIT != 0) <==> (s == Shared || s == Managed)
    ensures (flags & VK_MEMORY_PROPERTY_LAZILY_ALLOCATED_BIT != 0) <==> s == Memoryless
    ensures flags & !(VK_MEMORY_PROPERTY_DEVICE_LOCAL_BIT | VK_MEMORY_PROPERTY_HOST_VISIBLE_BIT |
                      VK_MEMORY_PROPERTY_HOST_COHERENT_BIT | VK_MEMORY_PROPERTY_LAZILY_ALLOCATED_BIT) == 0
    ensures flags == 0 <==> s == InvalidStorage
  {
    match s
    case InvalidStorage => 0
    case Private => VK_MEMORY_PROPERTY_DEVICE_LOCAL_BIT
    case Shared => VK_MEMORY_PROPERTY_HOST_VISIBLE_BIT | VK_MEMORY_PROPERTY_HOST_COHERENT_BIT
    case Managed => VK_MEMORY_PROPERTY_HOST_VISIBLE_BIT | VK_MEMORY_PROPERTY_HOST_COHERENT_BIT
    case Memoryless => VK_MEMORY_PROPERTY_DEVICE_LOCAL_BIT | VK_MEMORY_PROPERTY_LAZILY_ALLOCATED_BIT
  }

  // ---------------------------------------------------------------------
  // Sample counts
  // ---------------------------------------------------------------------

  /** 2^k */
  function Pow2(k: nat): (p: nat)
    ensures p >= 1
  {
    if k == 0 then 1 else 2 * Pow2(k - 1)
  }

  predicate IsPowerOfTwo(n: nat) {
    exists k: nat :: k <= 6 && Pow2(k) == n
  }

  /** getVulkanSampleCountFlags: VkSampleCountFlagBits are the powers of two 1..64. */
  function GetVulkanSampleCountFlags(numSamples: nat): (bits: nat)
  {
    if numSamples <= 1 then 1
    else if numSamples <= 2 then 2
    else if numSamples <= 4 then 4
    else if numSamples <= 8 then 8
    else if numSamples <= 16 then 16
    else if numSamples <= 32 then 32
    else 64
  }

  /**
   * The chosen bit is the smallest power of two (up to 64) that is at least
   * numSamples; requests above 64 are capped at 64.
   */
  lemma SampleCountIsSmallestPowerOfTwo(numSamples: nat)
    ensures IsPowerOfTwo(GetVulkanSampleCountFlags(numSamples))
    ensures numSamples <= 64 ==> numSamples <= GetVulkanSampleCountFlags(numSamples)
    ensures numSamples > 64 ==> GetVulkanSampleCountFlags(numSamples) == 64
    ensures forall k: nat :: k <= 6 && numSamples <= Pow2(k) ==> GetVulkanSampleCountFlags(numSamples) <= Pow2(k)
  {
    var b := GetVulkanSampleCountFlags(numSamples);
    assert Pow2(0) == 1 && Pow2(1) == 2 && Pow2(2) == 4 && Pow2(3) == 8;
    assert Pow2(4) == 16 && Pow2(5) == 32 && Pow2(6) == 64;
    var k: nat :| k <= 6 && Pow2(k) == b;
    forall j: nat | j <= 6 && numSamples <= Pow2(j)
      ensures b <= Pow2(j)
    {
    }
  }

  /** A request that is already a valid sample count is kept as it is. */
  lemma SampleCountKeepsPowersOfTwo(k: nat)
    requires k <= 6
    ensures GetVulkanSampleCountFlags(Pow2(k)) == Pow2(k)
  {
    assert Pow2(0) == 1 && Pow2(1) == 2 && Pow2(2) == 4 && Pow2(3) == 8;
    assert Pow2(4) == 16 && Pow2(5) == 32 && Pow2(6) == 64;
  }

  // ---------------------------------------------------------------------
  // Layers and planes
  // ---------------------------------------------------------------------

  /** getVkLayer: cube maps address their faces as layers. */
  function GetVkLayer(t: TextureType, face: nat, layer: nat): (r: nat)
    ensures t == Cube ==> r == face
    ensures t != Cube ==> r == layer
  {
    if t == Cube then face else layer
  }

  /** The layer and face part of TextureRangeDesc. */
  datatype TextureRange = TextureRange(layer: nat, numLayers: nat, face: nat, numFaces: nat)

  /**
   * atVkLayer: the range narrowed to one Vulkan layer, which is a face of a
   * cube map and an array layer otherwise (atFace and atLayer select one).
   */
  function AtVkLayer(t: TextureType, range: TextureRange, vkLayer: nat): (r: TextureRange)
    ensures t == Cube ==> r.face == vkLayer && r.numFaces == 1 && r.layer == range.layer && r.numLayers == range.numLayers
    ensures t != Cube ==> r.layer == vkLayer && r.numLayers == 1 && r.face == range.face && r.numFaces == range.numFaces
  {
    if t == Cube then range.(face := vkLayer, numFaces := 1) else range.(layer := vkLayer, numLayers := 1)
  }

  /** Narrowing to a Vulkan layer and reading it back gives that layer. */
  lemma VkLayerRoundTrip(t: TextureType, range: TextureRange, vkLayer: nat)
    ensures var r := AtVkLayer(t, range, vkLayer); GetVkLayer(t, r.face, r.layer) == vkLayer
  {
  }

  /** A range that already covers one Vulkan layer is its own narrowing to it. */
  lemma AtOwnVkLayer(t: TextureType, range: TextureRange)
    requires t == Cube ==> range.numFaces == 1
    requires t != Cube ==> range.numLayers == 1
    ensures AtVkLayer(t, range, GetVkLayer(t, range.face, range.layer)) == range
  {
  }

  /** Two Vulkan layers of the same range give different ranges. */
  lemma AtVkLayerInjective(t: TextureType, range: TextureRange, a: nat, b: nat)
    requires a != b
    ensures AtVkLayer(t, range, a) != AtVkLayer(t, range, b)
  {
  }

  const VK_FORMAT_UNDEFINED: int := 0
  const VK_FORMAT_G8_B8_R8_3PLANE_420_UNORM: int := 1000156002
  const VK_FORMAT_G8_B8R8_2PLANE_420_UNORM: int := 1000156003

  /** getNumImagePlanes: the two multi-planar YUV formats IGL uses, no plane for UNDEFINED, else one. */
  function GetNumImagePlanes(format: int): (n: nat)
    ensures n == 0 <==> format == VK_FORMAT_UNDEFINED
    ensures n == 2 <==> format == VK_FORMAT_G8_B8R8_2PLANE_420_UNORM
    ensures n == 3 <==> format == VK_FORMAT_G8_B8_R8_3PLANE_420_UNORM
    ensures n <= 3
  {
    if format == VK_FORMAT_UNDEFINED then 0
    else if format == VK_FORMAT_G8_B8R8_2PLANE_420_UNORM then 2
    else if format == VK_FORMAT_G8_B8_R8_3PLANE_420_UNORM then 3
    else 1
  }
}
