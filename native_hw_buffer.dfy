// Android hardware buffers behind IGL textures: the format and usage tables
// and the descriptor/lock helpers of src/igl/android/NativeHWBuffer.cpp, and
// the Vulkan texture buffer of src/igl/vulkan/android/NativeHWBuffer.cpp.
// The AHardwareBuffer_* and Vulkan calls are oracles: their outcomes are
// parameters.

module AndroidNativeHWBuffer {
  import opened IglCore

  // AHardwareBuffer_Format codes (android/hardware_buffer.h)
  const AHARDWAREBUFFER_FORMAT_R8G8B8A8_UNORM: nat := 1
  const AHARDWAREBUFFER_FORMAT_R8G8B8_UNORM: nat := 3
  const AHARDWAREBUFFER_FORMAT_R5G6B5_UNORM: nat := 4
  const AHARDWAREBUFFER_FORMAT_R16G16B16A16_FLOAT: nat := 0x16
  const AHARDWAREBUFFER_FORMAT_R10G10B10A2_UNORM: nat := 0x2b
  const AHARDWAREBUFFER_FORMAT_D16_UNORM: nat := 0x30
  const AHARDWAREBUFFER_FORMAT_D24_UNORM: nat := 0x31
  const AHARDWAREBUFFER_FORMAT_D24_UNORM_S8_UINT: nat := 0x32
  const AHARDWAREBUFFER_FORMAT_D32_FLOAT: nat := 0x33
  const AHARDWAREBUFFER_FORMAT_S8_UINT: nat := 0x35

  // AHardwareBuffer_UsageFlags bits
  const AHARDWAREBUFFER_USAGE_CPU_READ_OFTEN: bv64 := 3
  const AHARDWAREBUFFER_USAGE_CPU_WRITE_OFTEN: bv64 := 0x30
  const AHARDWAREBUFFER_USAGE_GPU_SAMPLED_IMAGE: bv64 := 0x100
  const AHARDWAREBUFFER_USAGE_GPU_COLOR_OUTPUT: bv64 := 0x200
  const AHARDWAREBUFFER_USAGE_COMPOSER_OVERLAY: bv64 := 0x800

  /** The IGL formats that have an AHardwareBuffer counterpart. */
  predicate HasNativeHWFormat(f: TextureFormat) {
    f.RGBX_UNorm8? || f.RGBA_UNorm8? || f.B5G6R5_UNorm? || f.RGBA_F16? || f.RGB10_A2_UNorm_Rev? ||
    f.Z_UNorm16? || f.Z_UNorm24? || f.Z_UNorm32? || f.S8_UInt_Z24_UNorm? || f.S_UInt8?
  }

  /** getNativeHWFormat; 0 is "no native format". */
  function GetNativeHWFormat(f: TextureFormat): (code: nat)
    ensures code > 0 <==> HasNativeHWFormat(f)
  {
    match f
    case RGBX_UNorm8 => AHARDWAREBUFFER_FORMAT_R8G8B8_UNORM
    case RGBA_UNorm8 => AHARDWAREBUFFER_FORMAT_R8G8B8A8_UNORM
    case B5G6R5_UNorm => AHARDWAREBUFFER_FORMAT_R5G6B5_UNORM
    case RGBA_F16 => AHARDWAREBUFFER_FORMAT_R16G16B16A16_FLOAT
    case RGB10_A2_UNorm_Rev => AHARDWAREBUFFER_FORMAT_R10G10B10A2_UNORM
    case Z_UNorm16 => AHARDWAREBUFFER_FORMAT_D16_UNORM
    case Z_UNorm24 => AHARDWAREBUFFER_FORMAT_D24_UNORM
    case Z_UNorm32 => AHARDWAREBUFFER_FORMAT_D32_FLOAT
    case S8_UInt_Z24_UNorm => AHARDWAREBUFFER_FORMAT_D24_UNORM_S8_UINT
    case S_UInt8 => AHARDWAREBUFFER_FORMAT_S8_UINT
    case _ => 0
  }

  /** The reverse table on native codes (getIglFormat, without the YUV entry the code does not produce). */
  function IglFormatOf(code: nat): (f: TextureFormat)
  {
    if code == AHARDWAREBUFFER_FORMAT_R8G8B8_UNORM then RGBX_UNorm8
    else if code == AHARDWAREBUFFER_FORMAT_R8G8B8A8_UNORM then RGBA_UNorm8
    else if code == AHARDWAREBUFFER_FORMAT_R5G6B5_UNORM then B5G6R5_UNorm
    else if code == AHARDWAREBUFFER_FORMAT_R16G16B16A16_FLOAT then RGBA_F16
    else if code == AHARDWAREBUFFER_FORMAT_R10G10B10A2_UNORM then RGB10_A2_UNorm_Rev
    else if code == AHARDWAREBUFFER_FORMAT_D16_UNORM then Z_UNorm16
    else if code == AHARDWAREBUFFER_FORMAT_D24_UNORM then Z_UNorm24
    else if code == AHARDWAREBUFFER_FORMAT_D32_FLOAT then Z_UNorm32
    else if code == AHARDWAREBUFFER_FORMAT_D24_UNORM_S8_UINT then S8_UInt_Z24_UNorm
    else if code == AHARDWAREBUFFER_FORMAT_S8_UINT then S_UInt8
    else InvalidFormat
  }

  /** Every supported format comes back from its native code, so distinct formats get distinct codes. */
  lemma NativeHWFormatRoundTrip(f: TextureFormat)
    requires HasNativeHWFormat(f)
    ensures IglFormatOf(GetNativeHWFormat(f)) == f
  {
  }

  lemma NativeHWFormatInjective(f: TextureFormat, g: TextureFormat)
    requires HasNativeHWFormat(f) && HasNativeHWFormat(g)
    ensures GetNativeHWFormat(f) == GetNativeHWFormat(g) ==> f == g
  {
    NativeHWFormatRoundTrip(f);
    NativeHWFormatRoundTrip(g);
  }

  /** As the code is written, YUV_NV12 and Invalid have no native format. */
  lemma UnsupportedFormatsMapToZero()
    ensures GetNativeHWFormat(YUV_NV12) == 0
    ensures GetNativeHWFormat(InvalidFormat) == 0
    ensures forall n: nat :: GetNativeHWFormat(OtherFormat(n)) == 0
  {
  }

  /** The native usage bits that an IGL usage mask asks for. */
  predicate UsageBitsFollow(usage: bv32, r: bv64) {
    && ((r & AHARDWAREBUFFER_USAGE_GPU_SAMPLED_IMAGE != 0) <==> (usage & TextureUsageSampled != 0))
    && ((r & AHARDWAREBUFFER_USAGE_CPU_READ_OFTEN == AHARDWAREBUFFER_USAGE_CPU_READ_OFTEN) <==> (usage & TextureUsageStorage != 0))
    && ((r & AHARDWAREBUFFER_USAGE_CPU_WRITE_OFTEN == AHARDWAREBUFFER_USAGE_CPU_WRITE_OFTEN) <==> (usage & TextureUsageStorage != 0))
    && ((r & AHARDWAREBUFFER_USAGE_GPU_COLOR_OUTPUT != 0) <==> (usage & TextureUsageAttachment != 0))
    && r & !(AHARDWAREBUFFER_USAGE_GPU_SAMPLED_IMAGE | AHARDWAREBUFFER_USAGE_CPU_READ_OFTEN |
             AHARDWAREBUFFER_USAGE_CPU_WRITE_OFTEN | AHARDWAREBUFFER_USAGE_GPU_COLOR_OUTPUT) == 0
  }

  /**
   * getNativeHWBufferUsage: OR-accumulates one native group per IGL usage bit.
   * The accumulator is 64 bits wide and the function returns 32 bits; every
   * bit it can set lies below bit 10, so nothing is lost.
   */
  method GetNativeHWBufferUsage(usage: bv32) returns (bufferUsage: bv64)
    ensures UsageBitsFollow(usage, bufferUsage)
    ensures usage & (TextureUsageSampled | TextureUsageStorage | TextureUsageAttachment) == 0 ==> bufferUsage == 0
    ensures bufferUsage < 0x1_0000_0000
  {
    bufferUsage := 0;
    if usage & TextureUsageSampled != 0 {
      bufferUsage := bufferUsage | AHARDWAREBUFFER_USAGE_GPU_SAMPLED_IMAGE;
    }
    if usage & TextureUsageStorage != 0 {
      bufferUsage := bufferUsage | AHARDWAREBUFFER_USAGE_CPU_READ_OFTEN | AHARDWAREBUFFER_USAGE_CPU_WRITE_OFTEN;
    }
    if usage & TextureUsageAttachment != 0 {
      bufferUsage := bufferUsage | AHARDWAREBUFFER_USAGE_GPU_COLOR_OUTPUT;
    }
  }

  /** AHardwareBuffer_Desc */
  datatype HWBufferDesc = HWBufferDesc(
    format: nat, width: nat, height: nat, layers: nat, usage: bv64, stride: nat, rfu0: nat, rfu1: nat)

  /**
   * The descriptor allocateNativeHWBuffer fills in. Width and height are
   * narrowed to the 32-bit fields; the overlay bit exists from API level 33
   * on, which is a build setting here.
   */
  predicate DescribesAllocation(d: HWBufferDesc, desc: TextureDesc, surfaceComposite: bool, apiLevel33: bool) {
    && d.format == GetNativeHWFormat(desc.format)
    && d.width == Wrap(desc.width, UINT32_LIMIT) && d.height == Wrap(desc.height, UINT32_LIMIT)
    && d.layers == 1 && d.rfu0 == 0 && d.rfu1 == 0 && d.stride == 0
    && UsageBitsFollow(desc.usage, d.usage & !AHARDWAREBUFFER_USAGE_COMPOSER_OVERLAY)
    && ((d.usage & AHARDWAREBUFFER_USAGE_COMPOSER_OVERLAY != 0) <==> (apiLevel33 && surfaceComposite))
  }

  method AllocationDescriptor(desc: TextureDesc, surfaceComposite: bool, apiLevel33: bool)
    returns (d: HWBufferDesc)
    ensures DescribesAllocation(d, desc, surfaceComposite, apiLevel33)
  {
    var usage := GetNativeHWBufferUsage(desc.usage);
    d := HWBufferDesc(GetNativeHWFormat(desc.format), Wrap(desc.width, UINT32_LIMIT),
                      Wrap(desc.height, UINT32_LIMIT), 1, usage, 0, 0, 0);
    if apiLevel33 && surfaceComposite {
      d := d.(usage := d.usage | AHARDWAREBUFFER_USAGE_COMPOSER_OVERLAY);
    }
    assert d.usage & !AHARDWAREBUFFER_USAGE_COMPOSER_OVERLAY == usage;
  }

  /** allocateNativeHWBuffer: any non-zero allocator status is a RuntimeError. */
  function AllocationResult(allocatorStatus: int): (code: ResultCode)
    ensures code == Ok <==> allocatorStatus == 0
    ensures code == Ok || code == RuntimeError
  {
    if allocatorStatus != 0 then RuntimeError else Ok
  }

  /** INativeHWTextureBuffer::RangeDesc, the part lockHWBuffer writes. */
  datatype RangeDesc = RangeDesc(width: nat, height: nat, layer: nat, mipLevel: nat, stride: nat)

  datatype LockOutcome = LockOutcome(code: ResultCode, range: RangeDesc)

  /**
   * lockHWBuffer: on success the range describes the whole buffer (one layer,
   * one mip level); on a lock failure the range is left as it was.
   */
  function LockHWBuffer(described: HWBufferDesc, lockStatus: int, range: RangeDesc): (out: LockOutcome)
    ensures lockStatus != 0 ==> out.code == RuntimeError && out.range == range
    ensures lockStatus == 0 ==>
      && out.code == Ok
      && out.range.width == described.width && out.range.height == described.height
      && out.range.layer == 1 && out.range.mipLevel == 1 && out.range.stride == described.stride
  {
    if lockStatus != 0 then LockOutcome(RuntimeError, range)
    else LockOutcome(Ok, RangeDesc(described.width, described.height, 1, 1, described.stride))
  }

  /** unlockHWBuffer */
  function UnlockHWBuffer(unlockStatus: int): (code: ResultCode)
    ensures code == Ok <==> unlockStatus == 0
  {
    if unlockStatus != 0 then RuntimeError else Ok
  }
}

module VulkanNativeHWBuffer {
  import opened IglCore
  import opened AndroidNativeHWBuffer

  /** The description createHWBuffer accepts. */
  predicate IsValidRequest(desc: TextureDesc, hasStorageAlready: bool) {
    && desc.numLayers == 1 && desc.numSamples == 1 && desc.numMipLevels == 1
    && desc.usage != 0
    && desc.textureType == TwoD
    && desc.tiling == Optimal
    && GetNativeHWFormat(desc.format) > 0
    && !hasStorageAlready
    && desc.storage == Shared
  }

  /** Only a single-level, single-sample, shared 2D texture of a mapped format qualifies. */
  lemma ValidRequestNeedsNativeFormat(desc: TextureDesc, hasStorageAlready: bool)
    ensures IsValidRequest(desc, hasStorageAlready) ==> HasNativeHWFormat(desc.format)
    ensures desc.format == YUV_NV12 ==> !IsValidRequest(desc, hasStorageAlready)
  {
  }

  /** What the allocator and the Vulkan image and texture creation report. */
  datatype CreationOutcome = CreationOutcome(
    allocatorStatus: int, allocatedBuffer: nat, imageCreated: bool, textureId: nat)

  /**
   * igl::vulkan::android::NativeHWTextureBuffer, with the fields of its base
   * class INativeHWTextureBuffer. A texture is an id; 0 is no texture.
   */
  class NativeHWTextureBuffer {
    var hwBuffer: Option<nat>
    var isHwBufferExternal: bool
    var texture: Option<nat>
    var desc: Option<TextureDesc>
    /** Buffers released by the destructor, in order. */
    var released: seq<nat>
    /** Descriptors handed to AHardwareBuffer_allocate, in order. */
    var allocationRequests: seq<HWBufferDesc>

    constructor ()
      ensures hwBuffer == None && !isHwBufferExternal && texture == None && desc == None && released == []
      ensures allocationRequests == []
    {
      hwBuffer := None;
      isHwBufferExternal := false;
      texture := None;
      desc := None;
      released := [];
      allocationRequests := [];
    }

    /** Whether an allocation of the buffer was requested by the last call: exactly one descriptor added. */
    ghost predicate RequestedOnce(oldRequests: seq<HWBufferDesc>, d: TextureDesc, surfaceComposite: bool, apiLevel33: bool)
      reads this
    {
      && |allocationRequests| == |oldRequests| + 1
      && allocationRequests[..|oldRequests|] == oldRequests
      && DescribesAllocation(allocationRequests[|oldRequests|], d, surfaceComposite, apiLevel33)
    }

    /**
     * createHWBuffer: an existing texture, then an invalid request, then an
     * allocation failure, then a failed image, then a failed texture are
     * reported in that order; only full success stores desc_ and texture_.
     * The allocator is asked once, and only for a valid request.
     */
    method CreateHWBuffer(d: TextureDesc, hasStorageAlready: bool, surfaceComposite: bool, apiLevel33: bool,
                          oracle: CreationOutcome)
      returns (code: ResultCode)
      modifies this
      ensures isHwBufferExternal == old(isHwBufferExternal) && released == old(released)
      ensures old(texture).Some? ==> code == RuntimeError && unchanged(this)
      ensures old(texture).None? && !IsValidRequest(d, hasStorageAlready) ==> code == Unsupported && unchanged(this)
      ensures old(texture).None? && IsValidRequest(d, hasStorageAlready) ==>
        && RequestedOnce(old(allocationRequests), d, surfaceComposite, apiLevel33)
        && if oracle.allocatorStatus != 0 then
          && code == AllocationResult(oracle.allocatorStatus)
          && hwBuffer == old(hwBuffer) && texture == old(texture) && desc == old(desc)
        else
          && hwBuffer == Some(oracle.allocatedBuffer)
          && (code == Ok <==> oracle.imageCreated && oracle.textureId != 0)
          && (code != Ok ==> code == RuntimeError && texture == None && desc == old(desc))
          && (code == Ok ==> texture == Some(oracle.textureId) && desc == Some(d))
    {
      if texture.Some? {
        return RuntimeError;
      }
      if !IsValidRequest(d, hasStorageAlready) {
        return Unsupported;
      }
      var request := AllocationDescriptor(d, surfaceComposite, apiLevel33);
      allocationRequests := allocationRequests + [request];
      var allocation := AllocationResult(oracle.allocatorStatus);
      if allocation != Ok {
        return allocation;
      }
      hwBuffer := Some(oracle.allocatedBuffer);
      if !oracle.imageCreated {
        return RuntimeError;
      }
      if oracle.textureId == 0 {
        return RuntimeError;
      }
      desc := Some(d);
      texture := Some(oracle.textureId);
      return Ok;
    }

    /** create(desc) is createHWBuffer(desc, false, false): every outcome of it, with no stored storage and no overlay. */
    method Create(d: TextureDesc, apiLevel33: bool, oracle: CreationOutcome) returns (code: ResultCode)
      modifies this
      ensures isHwBufferExternal == old(isHwBufferExternal) && released == old(released)
      ensures old(texture).Some? ==> code == RuntimeError && unchanged(this)
      ensures old(texture).None? && !IsValidRequest(d, false) ==> code == Unsupported && unchanged(this)
      ensures old(texture).None? && IsValidRequest(d, false) ==>
        && RequestedOnce(old(allocationRequests), d, false, apiLevel33)
        && allocationRequests[|old(allocationRequests)|].usage & AHARDWAREBUFFER_USAGE_COMPOSER_OVERLAY == 0
        && if oracle.allocatorStatus != 0 then
          && code == AllocationResult(oracle.allocatorStatus)
          && hwBuffer == old(hwBuffer) && texture == old(texture) && desc == old(desc)
        else
          && hwBuffer == Some(oracle.allocatedBuffer)
          && (code == Ok <==> oracle.imageCreated && oracle.textureId != 0)
          && (code != Ok ==> code == RuntimeError && texture == None && desc == old(desc))
          && (code == Ok ==> texture == Some(oracle.textureId) && desc == Some(d))
    {
      code := CreateHWBuffer(d, false, false, apiLevel33, oracle);
    }

    /** The destructor of INativeHWTextureBuffer releases the buffer only if it does not belong to someone else. */
    method Destroy()
      modifies this
      ensures !old(isHwBufferExternal) ==> hwBuffer == None
      ensures !old(isHwBufferExternal) && old(hwBuffer).Some? ==> released == old(released) + [old(hwBuffer).value]
      ensures !old(isHwBufferExternal) && old(hwBuffer).None? ==> released == old(released)
      ensures old(isHwBufferExternal) ==> unchanged(this)
      ensures texture == old(texture) && desc == old(desc) && isHwBufferExternal == old(isHwBufferExternal)
      ensures allocationRequests == old(allocationRequests)
    {
      if !isHwBufferExternal {
        if hwBuffer.Some? {
          released := released + [hwBuffer.value];
        }
        hwBuffer := None;
      }
    }
  }
}
